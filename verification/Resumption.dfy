/** When a resumed task starts a node before its dependencies. */
module Resumption {
  import opened Ids
  import opened Graphs
  import opened TaskPlans
  import opened PlanChecks
  import opened Batches
  import opened Workflows
  import opened Passes
  import opened PassSafety
  import opened Histories

  // ----- Starting too early -----

  /** Every recorded node's dependencies are recorded as well. */
  ghost predicate RecordClosed(order: seq<WorkflowNode>, recorded: set<string>)
  {
    recorded <= IdSet(order) && forall n :: n in order && n.id in recorded ==> Dependencies(n) <= recorded
  }

  /** Unit j has no recorded node, and d, which its node n depends on, is neither recorded nor in an earlier unit. */
  ghost predicate StartsEarly(units: seq<Unit>, recorded: set<string>, j: int, n: WorkflowNode, d: string)
  {
    && 0 <= j < |units| && Intact(units[j], recorded) && n in units[j] && d in n.dependsOn && d !in recorded
    && forall i :: 0 <= i < j ==> d !in IdSet(units[i])
  }

  /** Some node is started although one of its dependencies has never been run. */
  ghost predicate Overtakes(units: seq<Unit>, recorded: set<string>)
  {
    exists j, n, d :: StartsEarly(units, recorded, j, n, d)
  }

  lemma SafeNeverOvertakes(units: seq<Unit>, recorded: set<string>)
    requires SafeUnits(units, {})
    ensures !Overtakes(units, recorded)
  {
    if Overtakes(units, recorded) {
      var j, n, d :| StartsEarly(units, recorded, j, n, d);
      var i := EarlierUnit(units, {}, j, n, d);
      assert false;
    }
  }

  /** The walk comes to an untouched batch before anything that holds d. */
  lemma {:induction false} WalkReaches(tail: seq<WorkflowNode>, heads: map<string, Unit>, recorded: set<string>,
                                       skip: set<string>, k: nat, d: string) returns (j: nat)
    requires k < |tail| && tail[k].id in heads && Intact(heads[tail[k].id], recorded) && tail[k].id !in skip
    requires forall i :: 0 <= i < k ==> tail[i].id != d
    requires forall i :: 0 <= i < k && tail[i].id in heads && Intact(heads[tail[i].id], recorded) ==>
      d !in IdSet(heads[tail[i].id]) && tail[k].id !in IdSet(heads[tail[i].id])
    ensures j < |Walk(tail, heads, recorded, skip)| && Walk(tail, heads, recorded, skip)[j] == heads[tail[k].id]
    ensures forall i :: 0 <= i < j ==> d !in IdSet(Walk(tail, heads, recorded, skip)[i])
    decreases k
  {
    hide IdSet, Intact, Walk;
    WalkOnce(tail, heads, recorded, skip);
    var t0 := tail[0];
    if k == 0 {
      return 0;
    } else if t0.id in skip {
      j := WalkReaches(tail[1..], heads, recorded, skip, k - 1, d);
    } else if t0.id in heads && Intact(heads[t0.id], recorded) {
      j := WalkReaches(tail[1..], heads, recorded, skip + IdSet(heads[t0.id]), k - 1, d);
      j := j + 1;
    } else {
      SingleId(t0);
      j := WalkReaches(tail[1..], heads, recorded, skip, k - 1, d);
      j := j + 1;
    }
  }

  // ----- The record that makes an unsafe plan go wrong -----

  /** What is recorded when batch b has failed and been forgotten and the task is then restarted at d: the batches before,
      without what depends on d. */
  ghost function RecordBefore(g: Graph, batches: seq<Unit>, b: nat, d: string): set<string>
    requires b <= |batches|
  {
    set x | x in IdSet(Flatten(batches[..b])) && !Reaches(g, x, d)
  }

  lemma {:induction false} InEarlierBatch(batches: seq<Unit>, b: nat, x: string) returns (c: nat, m: WorkflowNode)
    requires b <= |batches| && x in IdSet(Flatten(batches[..b]))
    ensures c < b && m in batches[c] && m.id == x
    decreases b
  {
    if batches[..b] == [] {
      assert false;
    }
    var i :| 0 <= i < |Flatten(batches[..b])| && Flatten(batches[..b])[i].id == x;
    if i < |batches[0]| {
      return 0, batches[0][i];
    }
    assert batches[..b][1..] == batches[1..][..b - 1];
    assert Flatten(batches[1..][..b - 1])[i - |batches[0]|].id == x;
    c, m := InEarlierBatch(batches[1..], b - 1, x);
    c := c + 1;
  }

  lemma {:induction false} EarlierIsIn(batches: seq<Unit>, b: nat, c: nat, m: WorkflowNode)
    requires c < b <= |batches| && m in batches[c]
    ensures m.id in IdSet(Flatten(batches[..b]))
  {
    assert batches[..b][c] == batches[c];
    MemberOfFlatten(batches[..b], batches[c], m);
    MemberId(Flatten(batches[..b]), m);
  }

  /** A plan in its order, with its batches. */
  ghost predicate Arranged(nodes: seq<WorkflowNode>, order: seq<WorkflowNode>, batches: seq<Unit>)
  {
    && SameNodes(Latest(nodes), order) && UniqueIds(order) && Distinct(batches) && SafeUnits(batches, {}) && UnitsWithin(batches, order)
    && HeadsMatch(HeadMap(batches), batches)
  }

  lemma PlanIsArranged(nodes: seq<WorkflowNode>, order: seq<WorkflowNode>)
    requires IsDepthOrder(nodes, order) && Closed(DependencyGraph(nodes)) && Acyclic(DependencyGraph(nodes))
    ensures BatchesFrom(order, {}).Some? && Arranged(nodes, order, BatchesFrom(order, {}).value)
    ensures NonEmpty(BatchesFrom(order, {}).value)
  {
    FreshWalkIsBatches(nodes, order);
    DepthOrderIsLayered(nodes, order);
    BatchesPartition(order, {});
    var batches := BatchesFrom(order, {}).value;
    HeadMapMatches(batches);
    forall u: Unit, m | u in batches && m in u ensures m in order {
      MemberOfFlatten(batches, u, m);
    }
  }

  lemma OrderedEdge(nodes: seq<WorkflowNode>, order: seq<WorkflowNode>, n: WorkflowNode, d: string)
    requires SameNodes(Latest(nodes), order) && n in order && d in n.dependsOn
    ensures Edge(DependencyGraph(nodes), n.id, d)
  {
    var i :| 0 <= i < |order| && order[i] == n;
    assert d in Dependencies(n);
  }

  /** The record holds what its nodes depend on. */
  lemma RecordIsClosed(nodes: seq<WorkflowNode>, order: seq<WorkflowNode>, batches: seq<Unit>, b: nat, d: string)
    requires Arranged(nodes, order, batches) && b <= |batches|
    ensures RecordClosed(order, RecordBefore(DependencyGraph(nodes), batches, b, d))
  {
    hide Distinct, UniqueIds, SafeUnits, HeadsMatch, HeadMap, SameNodes, IdSet, Reaches, UnitsWithin, DependencyGraph, Latest, Flatten;
    var g := DependencyGraph(nodes);
    var recorded := RecordBefore(g, batches, b, d);
    forall x | x in recorded ensures x in IdSet(order) {
      var c, m := InEarlierBatch(batches, b, x);
      WithinOrder(batches, order, c, m);
      MemberId(order, m);
    }
    forall n, e | n in order && n.id in recorded && e in Dependencies(n) ensures e in recorded {
      var c, m := InEarlierBatch(batches, b, n.id);
      WithinOrder(batches, order, c, m);
      SameId(order, m, n);
      var i := EarlierUnit(batches, {}, c, n, e);
      IdOfMember(batches, i, e);
      var y: WorkflowNode :| y in batches[i] && y.id == e;
      EarlierIsIn(batches, b, i, y);
      OrderedEdge(nodes, order, n, e);
      if Reaches(g, e, d) {
        ReachesThrough(g, n.id, e, d);
      }
    }
  }

  lemma IdOfMember(units: seq<Unit>, i: nat, x: string)
    requires i < |units| && x in IdSet(units[i])
    ensures exists y: WorkflowNode :: y in units[i] && y.id == x
  {
    var k :| 0 <= k < |units[i]| && units[i][k].id == x;
    assert units[i][k] in units[i];
  }

  lemma LongChain(g: Graph, x: string, d: string) returns (p: seq<string>)
    requires Reaches(g, x, d) && x != d
    ensures IsChain(g, p) && |p| > 1 && p[0] == x && p[|p| - 1] == d
  {
    p :| IsChain(g, p) && p[0] == x && p[|p| - 1] == d;
  }

  /** No node of a batch reaches another node of it. */
  lemma BatchReachesNothing(nodes: seq<WorkflowNode>, order: seq<WorkflowNode>, batches: seq<Unit>, a: nat, m: WorkflowNode, d: string)
    requires Arranged(nodes, order, batches) && a < |batches| && m in batches[a] && d in IdSet(batches[a]) && m.id != d
    ensures !Reaches(DependencyGraph(nodes), m.id, d)
  {
    hide Distinct, UniqueIds, SafeUnits, HeadsMatch, HeadMap, SameNodes, IdSet, UnitsWithin, DependencyGraph, Latest, IsChain;
    var g := DependencyGraph(nodes);
    if Reaches(g, m.id, d) {
      var p := LongChain(g, m.id, d);
      var i := AncestorEarlier(nodes, order, batches, a, m, p);
      SameUnit(batches, i, a, d);
      assert false;
    }
  }

  /** If d, on which batch b depends, does not precede the first node of batch b, resuming from this record overtakes it. */
  lemma RecordOvertakes(nodes: seq<WorkflowNode>, order: seq<WorkflowNode>, batches: seq<Unit>, b: nat, n: WorkflowNode, d: string, k: nat)
    requires Arranged(nodes, order, batches) && Layered(order, {}) && BatchesFrom(order, {}) == Some(batches)
    requires b < |batches| && |batches[b]| > 1 && n in batches[b] && d in n.dependsOn
    requires k < |order| && order[k] == batches[b][0] && !Precedes(order, d, k)
    ensures Overtakes(Walk(order, HeadMap(batches), RecordBefore(DependencyGraph(nodes), batches, b, d), {}),
                      RecordBefore(DependencyGraph(nodes), batches, b, d))
  {
    hide *;
    ArrangedSays(nodes, order, batches);
    var g, heads := DependencyGraph(nodes), HeadMap(batches);
    var recorded := RecordBefore(g, batches, b, d);
    var a, h := HeadOfMissing(nodes, order, batches, b, n, d, k);
    RecordHolds(g, batches, b, d, a, h);
    RecordMisses(g, batches, b, d);
    HeadThere(batches, b);
    forall t | 0 <= t < k && order[t].id in heads && Intact(heads[order[t].id], recorded)
      ensures d !in IdSet(heads[order[t].id]) && order[k].id !in IdSet(heads[order[t].id])
    {
      OtherBatch(batches, order, t, k, a, b, d, recorded, h);
    }
    NotBefore(order, d, k);
    var j := WalkReaches(order, heads, recorded, {}, k, d);
    assert Overtakes(Walk(order, heads, recorded, {}), recorded) by {
      ItOvertakes(Walk(order, heads, recorded, {}), recorded, j, n, d);
    }
  }

  lemma ItOvertakes(units: seq<Unit>, recorded: set<string>, j: nat, n: WorkflowNode, d: string)
    requires j < |units| && Intact(units[j], recorded) && n in units[j] && d in n.dependsOn && d !in recorded
    requires forall i :: 0 <= i < j ==> d !in IdSet(units[i])
    ensures Overtakes(units, recorded)
  {
    assert StartsEarly(units, recorded, j, n, d);
  }

  lemma NotBefore(order: seq<WorkflowNode>, d: string, k: nat)
    requires k < |order| && !Precedes(order, d, k)
    ensures forall i :: 0 <= i < k ==> order[i].id != d
  {
  }

  /** The batch of the missing dependency, whose first node comes before the first node of batch b and does not depend on it. */
  lemma HeadOfMissing(nodes: seq<WorkflowNode>, order: seq<WorkflowNode>, batches: seq<Unit>, b: nat, n: WorkflowNode, d: string, k: nat)
    returns (a: nat, h: WorkflowNode)
    requires Arranged(nodes, order, batches) && Layered(order, {}) && BatchesFrom(order, {}) == Some(batches)
    requires b < |batches| && |batches[b]| > 1 && n in batches[b] && d in n.dependsOn
    requires k < |order| && order[k] == batches[b][0] && !Precedes(order, d, k)
    ensures a < b && d in IdSet(batches[a]) && batches[a] != [] && h == batches[a][0] && !Reaches(DependencyGraph(nodes), h.id, d)
  {
    a := EarlierUnit(batches, {}, b, n, d);
    DistinctIsNonEmpty(batches);
    BatchesPartition(order, {});
    h := batches[a][0];
    HeadsInOrder(order, {}, batches, a, b);
    var i, j := PositionsInOrder(order, h, batches[b][0]);
    assert j == k;
    hide Arranged, Reaches, DependencyGraph;
    BatchReachesNothing(nodes, order, batches, a, h, d);
  }

  lemma RecordHolds(g: Graph, batches: seq<Unit>, b: nat, d: string, a: nat, h: WorkflowNode)
    requires a < b <= |batches| && h in batches[a] && !Reaches(g, h.id, d)
    ensures h.id in RecordBefore(g, batches, b, d)
  {
    hide Reaches;
    EarlierIsIn(batches, b, a, h);
  }

  lemma RecordMisses(g: Graph, batches: seq<Unit>, b: nat, d: string)
    requires b < |batches| && Distinct(batches)
    ensures d !in RecordBefore(g, batches, b, d) && Intact(batches[b], RecordBefore(g, batches, b, d))
  {
    ReachesItself(g, d);
    hide Reaches, IdSet, Distinct, Flatten;
    forall m | m in batches[b] ensures m.id !in RecordBefore(g, batches, b, d) {
      if m.id in IdSet(Flatten(batches[..b])) {
        var c, y := InEarlierBatch(batches, b, m.id);
        DifferentUnits(batches, c, b, y, m);
      }
    }
  }

  lemma HeadThere(batches: seq<Unit>, b: nat)
    requires b < |batches| && |batches[b]| > 1 && NonEmpty(batches) && HeadsMatch(HeadMap(batches), batches)
    ensures batches[b][0].id in HeadMap(batches) && HeadMap(batches)[batches[b][0].id] == batches[b]
  {
  }

  /** An untouched batch headed before position k holds neither d nor the node at position k. */
  lemma OtherBatch(batches: seq<Unit>, order: seq<WorkflowNode>, t: nat, k: nat, a: nat, b: nat, d: string, recorded: set<string>, h: WorkflowNode)
    requires Distinct(batches) && UniqueIds(order) && t < k < |order| && a < |batches| && b < |batches| && batches[b] != []
    requires order[t].id in HeadMap(batches) && Intact(HeadMap(batches)[order[t].id], recorded)
    requires h in batches[a] && h.id in recorded && d in IdSet(batches[a]) && order[k] == batches[b][0]
    ensures d !in IdSet(HeadMap(batches)[order[t].id]) && order[k].id !in IdSet(HeadMap(batches)[order[t].id])
  {
    HeadMapHolds(batches, order[t].id);
    var v := HeadMap(batches)[order[t].id];
    assert v[0] in v;
    var c :| 0 <= c < |batches| && batches[c] == v;
    if d in IdSet(v) {
      SameUnit(batches, a, c, d);
      assert false;
    }
    if order[k].id in IdSet(v) {
      assert batches[b][0].id in IdSet(batches[b]);
      SameUnit(batches, b, c, order[k].id);
      assert false;
    }
  }

  // ----- The exact condition -----

  /** Whatever runs are recorded together with those they depend on, a resumed pass starts no node while one of its
      dependencies has never been run, if and only if the plan is resume-safe. */
  lemma ResumeSafety(nodes: seq<WorkflowNode>, order: seq<WorkflowNode>)
    requires IsDepthOrder(nodes, order) && Closed(DependencyGraph(nodes)) && Acyclic(DependencyGraph(nodes))
    ensures BatchesFrom(order, {}).Some? && NonEmpty(BatchesFrom(order, {}).value)
    ensures var batches := BatchesFrom(order, {}).value;
      ResumeSafe(order, batches) <==>
        forall recorded :: RecordClosed(order, recorded) ==> !Overtakes(Walk(order, HeadMap(batches), recorded, {}), recorded)
  {
    hide *;
    PlanIsArranged(nodes, order);
    var batches := BatchesFrom(order, {}).value;
    if ResumeSafe(order, batches) {
      forall recorded | RecordClosed(order, recorded) ensures !Overtakes(Walk(order, HeadMap(batches), recorded, {}), recorded) {
        ResumeSafeWalk(nodes, order, recorded);
        SafeNeverOvertakes(Walk(order, HeadMap(batches), recorded, {}), recorded);
      }
    } else {
      DepthOrderIsLayered(nodes, order);
      var b, n, d, k := Missing(order, batches);
      RecordIsClosed(nodes, order, batches, b, d);
      ArrangedSays(nodes, order, batches);
      RecordOvertakes(nodes, order, batches, b, n, d, k);
    }
  }

  lemma ArrangedSays(nodes: seq<WorkflowNode>, order: seq<WorkflowNode>, batches: seq<Unit>)
    requires Arranged(nodes, order, batches)
    ensures Distinct(batches) && UniqueIds(order) && UnitsWithin(batches, order) && NonEmpty(batches)
    ensures HeadsMatch(HeadMap(batches), batches)
  {
  }

  lemma Missing(order: seq<WorkflowNode>, batches: seq<Unit>) returns (b: nat, n: WorkflowNode, d: string, k: nat)
    requires !ResumeSafe(order, batches)
    ensures b < |batches| && |batches[b]| > 1 && n in batches[b] && d in n.dependsOn
    ensures k < |order| && order[k] == batches[b][0] && !Precedes(order, d, k)
  {
    var u: Unit, m, e, i :| u in batches && |u| > 1 && m in u && e in m.dependsOn && 0 <= i < |order| && order[i] == u[0]
      && !Precedes(order, e, i);
    b :| 0 <= b < |batches| && batches[b] == u;
    n, d, k := m, e, i;
  }

  // ----- A history in which it happens -----

  /** Succeeds where it is not doomed; the doomed ones cannot be prepared. */
  ghost function Succeeds(order: seq<WorkflowNode>, doomed: set<string>): Fates
  {
    id => if id in doomed || id !in Latest(order) then IDLE else Succeeding(Latest(order)[id])
  }

  lemma SucceedsAt(order: seq<WorkflowNode>, doomed: set<string>, n: WorkflowNode)
    requires UniqueIds(order) && n in order
    ensures Succeeds(order, doomed)(n.id) == if n.id in doomed then IDLE else Succeeding(n)
    ensures Likely(n, Succeeds(order, doomed)(n.id))
  {
    ListedUnderId(order, n);
    SucceedingIsLikely(n);
    NoEndings(n);
  }

  predicate AllSucceeded(v: View)
  {
    forall x :: x in v.recorded ==> v.recorded[x] == Succeeded
  }

  /** A pass that goes on as it should: everything recorded has succeeded, namely what was recorded before and what this
      pass has visited. */
  ghost predicate OnTrack(v: View, s: PassState)
  {
    && s.running && AllSucceeded(s.view) && s.view.stray == v.stray
    && s.view.recorded.Keys == v.recorded.Keys + IdSet(Flatten(Units(s.visits)))
  }

  lemma {:induction false} FlattenAppend(units: seq<Unit>, u: Unit)
    ensures Flatten(units + [u]) == Flatten(units) + u
  {
    if units == [] {
      assert [] + [u] == [u] && [u][1..] == [];
    } else {
      assert (units + [u])[1..] == units[1..] + [u];
      FlattenAppend(units[1..], u);
    }
  }

  lemma UnitsIds(visits: seq<Visit>, x: Visit)
    ensures IdSet(Flatten(Units(visits + [x]))) == IdSet(Flatten(Units(visits))) + IdSet(x.unit)
  {
    UnitsGrow(visits, x);
    FlattenAppend(Units(visits), x.unit);
    AppendedIds(Flatten(Units(visits)), x.unit);
  }

  /** One more visit that goes on and records its unit, or had it recorded, keeps the pass on track. */
  lemma TrackGoesOn(v: View, s: PassState, t: PassState, x: Visit)
    requires OnTrack(v, s) && t.running && AllSucceeded(t.view) && t.view.stray == s.view.stray && t.visits == s.visits + [x]
    requires t.view.recorded.Keys == s.view.recorded.Keys + IdSet(x.unit)
    ensures OnTrack(v, t)
  {
    hide AllSucceeded, Flatten, Units, IdSet;
    UnitsIds(s.visits, x);
  }

  lemma TrackHolds(v: View, s: PassState)
    requires OnTrack(v, s)
    ensures AllSucceeded(s.view)
  {
    hide AllSucceeded, Flatten, Units, IdSet;
  }

  /** How the pass moves at one position. */
  lemma VisitIs(s: PassState, node: WorkflowNode, heads: map<string, Unit>, fates: Fates)
    requires node.id !in s.skip
    ensures var t, u := VisitAt(s, node, heads, fates), UnitAt(s, node, heads);
      && (exists x: Visit :: x.unit == u && t.visits == s.visits + [x])
      && var move := if u == [node] && !(node.id in heads && Intact(heads[node.id], s.view.recorded.Keys)) then
                       (if node.id in s.view.recorded then VisitRecorded(s.view, node, fates(node.id))
                        else VisitNew(s.view, node, fates(node.id)))
                     else VisitBatch(s.view, u, fates);
        t.running == move.goes && t.view == move.view
  {
    hide VisitBatch, VisitNew, VisitRecorded, IdSet, Intact;
    var t := VisitAt(s, node, heads, fates);
    assert t.visits == s.visits + [t.visits[|s.visits|]];
  }

  /** A visit of a unit without doomed members keeps the pass on track. */
  lemma StaysOnTrack(order: seq<WorkflowNode>, heads: map<string, Unit>, v: View, s: PassState, node: WorkflowNode, doomed: set<string>)
    requires HeadsFit(order, heads) && node in order && OnTrack(v, s)
    requires node.id !in s.skip ==> forall m :: m in UnitAt(s, node, heads) ==> m.id !in doomed
    ensures OnTrack(v, VisitAt(s, node, heads, Succeeds(order, doomed)))
  {
    hide *;
    var fates := Succeeds(order, doomed);
    var t := VisitAt(s, node, heads, fates);
    if node.id in s.skip {
      VisitAdds(s, node, heads, fates);
    } else {
      VisitIs(s, node, heads, fates);
      TrackHolds(v, s);
      VisitSucceeds(order, heads, s, node, doomed);
      var x: Visit :| x.unit == UnitAt(s, node, heads) && t.visits == s.visits + [x];
      TrackGoesOn(v, s, t, x);
    }
  }

  lemma VisitSucceeds(order: seq<WorkflowNode>, heads: map<string, Unit>, s: PassState, node: WorkflowNode, doomed: set<string>)
    requires HeadsFit(order, heads) && node in order && AllSucceeded(s.view) && node.id !in s.skip
    requires forall m :: m in UnitAt(s, node, heads) ==> m.id !in doomed
    ensures var t := VisitAt(s, node, heads, Succeeds(order, doomed));
      && t.running && AllSucceeded(t.view) && t.view.stray == s.view.stray
      && t.view.recorded.Keys == s.view.recorded.Keys + IdSet(UnitAt(s, node, heads))
  {
    hide Succeeds, VisitBatch, VisitNew, VisitRecorded, HeadsFit, HeadsWithin, AllSucceeded, Intact, IdSet;
    var fates := Succeeds(order, doomed);
    FitIsUnique(order, heads);
    if node.id in heads && Intact(heads[node.id], s.view.recorded.Keys) {
      var u := heads[node.id];
      FitSays(order, heads, node.id);
      forall m | m in u ensures m in order && m.id !in doomed {
        UnitWithin(order, heads, node, m);
      }
      BatchSucceeds(order, s.view, u, doomed);
    } else {
      SingleId(node);
      assert node in [node];
      if node.id in s.view.recorded {
        KeptRecord(s.view, node, fates(node.id));
      } else {
        SucceedsAt(order, doomed, node);
        NewSucceeds(s.view, node);
      }
    }
  }

  lemma KeptRecord(v: View, node: WorkflowNode, fate: Fate)
    requires node.id in v.recorded && AllSucceeded(v)
    ensures var move := VisitRecorded(v, node, fate);
      move.goes && AllSucceeded(move.view) && move.view.recorded == v.recorded && move.view.stray == v.stray
  {
  }

  lemma NewSucceeds(v: View, node: WorkflowNode)
    requires node.id !in v.recorded && AllSucceeded(v)
    ensures var move := VisitNew(v, node, Succeeding(node));
      move.goes && AllSucceeded(move.view) && move.view.recorded.Keys == v.recorded.Keys + {node.id} && move.view.stray == v.stray
  {
    SucceedingIsLikely(node);
    assert Succeeding(node).endings != [];
    hide PositionAfter, Proper;
  }

  lemma BatchSucceeds(order: seq<WorkflowNode>, v: View, u: Unit, doomed: set<string>)
    requires UniqueIds(order) && UniqueIds(u) && AllSucceeded(v) && forall m :: m in u ==> m in order && m.id !in doomed
    ensures var move := VisitBatch(v, u, Succeeds(order, doomed));
      move.goes && AllSucceeded(move.view) && move.view.recorded.Keys == v.recorded.Keys + IdSet(u) && move.view.stray == v.stray
  {
    var fates := Succeeds(order, doomed);
    forall m | m in u ensures fates(m.id) == Succeeding(m) && PositionAfter(m, fates(m.id).endings) == Finished {
      SucceedsAt(order, doomed, m);
      SucceedingIsLikely(m);
    }
    hide Succeeds, Succeeding, PositionAfter, UniqueIds, IdSet;
    NothingFails(u, fates);
    forall x ensures x in RecordAll(v.recorded, u, fates) <==> x in v.recorded || x in IdSet(u) {
      RecordedBySuccess(v, u, fates, x);
    }
    forall x | x in RecordAll(v.recorded, u, fates) ensures RecordAll(v.recorded, u, fates)[x] == Succeeded {
      RecordedBySuccess(v, u, fates, x);
    }
  }

  lemma {:induction false} NothingFails(u: Unit, fates: Fates)
    requires forall m :: m in u ==> PositionAfter(m, fates(m.id).endings) == Finished
    ensures !SomeRaises(u, fates) && FirstFailure(u, fates) == None
  {
    hide PositionAfter;
    if u != [] {
      NothingFails(u[1..], fates);
    }
  }

  lemma RecordedBySuccess(v: View, u: Unit, fates: Fates, x: string)
    requires UniqueIds(u) && AllSucceeded(v) && forall m :: m in u ==> fates(m.id) == Succeeding(m)
    ensures x in RecordAll(v.recorded, u, fates) <==> x in v.recorded || x in IdSet(u)
    ensures x in RecordAll(v.recorded, u, fates) ==> RecordAll(v.recorded, u, fates)[x] == Succeeded
  {
    RecordAllAt(v.recorded, u, fates, x);
    if x in IdSet(u) {
      var i :| 0 <= i < |u| && u[i].id == x;
      assert u[i] in u;
      assert Succeeding(u[i]).endings != [];
    } else {
      forall m | m in u ensures m.id != x {
        MemberId(u, m);
      }
    }
  }

  /** The states of a pass under these fates, as long as it runs. */
  ghost function Under(order: seq<WorkflowNode>, heads: map<string, Unit>, v: View, fates: Fates, k: nat): PassState
    requires k <= |order|
  {
    if k == 0 then PassState(v, {}, [], true) else VisitAt(Under(order, heads, v, fates, k - 1), order[k - 1], heads, fates)
  }

  ghost function StatesUnder(order: seq<WorkflowNode>, heads: map<string, Unit>, v: View, fates: Fates, k: nat): (states: seq<PassState>)
    requires k <= |order|
    ensures |states| == k + 1 && forall i :: 0 <= i <= k ==> states[i] == Under(order, heads, v, fates, i)
  {
    seq(k + 1, i requires 0 <= i <= k => Under(order, heads, v, fates, i))
  }

  /** Running up to the end or up to where it stops, they are a pass. */
  lemma UnderIsPass(order: seq<WorkflowNode>, heads: map<string, Unit>, v: View, fates: Fates, k: nat)
    requires k <= |order| && AllLikely(order, fates) && forall i :: 0 <= i < k ==> Under(order, heads, v, fates, i).running
    requires k == |order| || !Under(order, heads, v, fates, k).running
    ensures IsPass(order, heads, v, StatesUnder(order, heads, v, fates, k))
  {
    hide VisitAt, AllLikely;
    var states := StatesUnder(order, heads, v, fates, k);
    forall i {:trigger MovesAt(order, heads, states, i)} | 0 <= i < k ensures MovesAt(order, heads, states, i) {
      assert states[i + 1] == VisitAt(states[i], order[i], heads, fates);
    }
  }

  lemma SucceedsLikely(order: seq<WorkflowNode>, doomed: set<string>)
    requires UniqueIds(order)
    ensures AllLikely(order, Succeeds(order, doomed))
  {
    forall n | n in order ensures Likely(n, Succeeds(order, doomed)(n.id)) {
      SucceedsAt(order, doomed, n);
    }
  }

  lemma StartOnTrack(order: seq<WorkflowNode>, heads: map<string, Unit>, v: View, fates: Fates)
    requires AllSucceeded(v)
    ensures OnTrack(v, Under(order, heads, v, fates, 0))
  {
    assert Units([]) == [] && IdSet([]) == {};
  }

  lemma UnderNext(order: seq<WorkflowNode>, heads: map<string, Unit>, v: View, fates: Fates, k: nat)
    requires k < |order|
    ensures Under(order, heads, v, fates, k + 1) == VisitAt(Under(order, heads, v, fates, k), order[k], heads, fates)
  {
    hide VisitAt;
  }

  /** A pass without doomed nodes gets through, if everything recorded at its start has succeeded. */
  lemma {:induction false} GetsThrough(order: seq<WorkflowNode>, heads: map<string, Unit>, v: View, k: nat)
    requires HeadsFit(order, heads) && AllSucceeded(v) && k <= |order|
    ensures forall i :: 0 <= i <= k ==> OnTrack(v, Under(order, heads, v, Succeeds(order, {}), i))
  {
    hide *;
    var fates := Succeeds(order, {});
    StartOnTrack(order, heads, v, fates);
    if k != 0 {
      GetsThrough(order, heads, v, k - 1);
      UnderNext(order, heads, v, fates, k - 1);
      StaysOnTrack(order, heads, v, Under(order, heads, v, fates, k - 1), order[k - 1], {});
    }
  }

  /** A first pass whose batch is doomed gets to the first node of that batch. */
  lemma {:induction false} GetsToHead(order: seq<WorkflowNode>, heads: map<string, Unit>, u: Unit, k: nat, j: nat)
    requires HeadsFit(order, heads) && HeadsApart(order, heads) && j <= k < |order| && order[k].id in heads && heads[order[k].id] == u
    ensures forall i :: 0 <= i <= j ==> OnTrack(FRESH, Under(order, heads, FRESH, Succeeds(order, IdSet(u)), i))
  {
    hide *;
    var fates := Succeeds(order, IdSet(u));
    FreshFacts();
    StartOnTrack(order, heads, FRESH, fates);
    if j != 0 {
      GetsToHead(order, heads, u, k, j - 1);
      UnderNext(order, heads, FRESH, fates, j - 1);
      var s := Under(order, heads, FRESH, fates, j - 1);
      forall m | m in UnitAt(s, order[j - 1], heads) ensures m.id !in IdSet(u) {
        UnitFrom(s, order[j - 1], heads, m);
        OutsideUnit(order, heads, k, j - 1, m);
      }
      StaysOnTrack(order, heads, FRESH, s, order[j - 1], IdSet(u));
    }
  }

  lemma FreshFacts()
    ensures AllSucceeded(FRESH) && FRESH.recorded == map[] && FRESH.recorded.Keys == {} && !FRESH.stray
  {
  }

  lemma UnitFrom(s: PassState, node: WorkflowNode, heads: map<string, Unit>, m: WorkflowNode)
    requires m in UnitAt(s, node, heads)
    ensures (node.id in heads && m in heads[node.id]) || m == node
  {
  }

  /** What is visited before the first node of a batch is not in that batch. */
  lemma OutsideUnit(order: seq<WorkflowNode>, heads: map<string, Unit>, k: nat, j: nat, m: WorkflowNode)
    requires HeadsFit(order, heads) && HeadsApart(order, heads) && j < k < |order| && order[k].id in heads
    requires (order[j].id in heads && m in heads[order[j].id]) || m == order[j]
    ensures m.id !in IdSet(heads[order[k].id])
  {
    var u := heads[order[k].id];
    FitSays(order, heads, order[k].id);
    hide HeadsFit;
    if m == order[j] {
      assert order[..k][j] == m;
      forall i | 0 <= i < |u| ensures u[i].id != m.id {
        assert u[i] in u;
      }
    } else {
      MemberId(heads[order[j].id], m);
      assert order[j].id != order[k].id;
    }
  }

  /** A batch whose members cannot be prepared fails the task and leaves no record of the batch. */
  lemma DoomedBatch(order: seq<WorkflowNode>, v: View, u: Unit)
    requires UniqueIds(order) && u != [] && u[0] in order && AllSucceeded(v)
    ensures var move := VisitBatch(v, u, Succeeds(order, IdSet(u)));
      !move.goes && move.view.recorded == v.recorded && move.view.stray == v.stray
  {
    hide UniqueIds, Succeeds, Raises, RecordAll, FirstFailure, Likely;
    var fates := Succeeds(order, IdSet(u));
    assert u[0].id in IdSet(u);
    SucceedsAt(order, IdSet(u), u[0]);
    IdleRaises(u[0]);
    assert u[0] in u && Raises(u[0], fates(u[0].id));
    NothingToCancel(v);
  }

  lemma IdleRaises(node: WorkflowNode)
    ensures Raises(node, IDLE)
  {
  }

  lemma NothingToCancel(v: View)
    requires AllSucceeded(v)
    ensures AllCancelled(v.recorded) == v.recorded
  {
  }

  /** The first pass: batch b fails and is forgotten, all before it has succeeded. */
  lemma FirstPass(order: seq<WorkflowNode>, heads: map<string, Unit>, batches: seq<Unit>, b: nat, k: nat) returns (v: View)
    requires HeadsFit(order, heads) && HeadsApart(order, heads) && Distinct(batches) && Walk(order, heads, {}, {}) == batches
    requires b < |batches| && k < |order| && order[k].id in heads && heads[order[k].id] == batches[b]
    ensures Executed(order, heads, true, FRESH, v) && AllSucceeded(v) && !v.stray
    ensures v.recorded.Keys == IdSet(Flatten(batches[..b]))
  {
    hide *;
    var u := batches[b];
    var fates := Succeeds(order, IdSet(u));
    var s, t := Under(order, heads, FRESH, fates, k), Under(order, heads, FRESH, fates, k + 1);
    FitSays(order, heads, order[k].id);
    SucceedsLikely(order, IdSet(u));
    GetsToHead(order, heads, u, k, k);
    FreshFacts();
    TracksRun(order, heads, FRESH, fates, k);
    HeadNow(order, heads, fates, k);
    DoomedBatch(order, s.view, u);
    FailsHere(order, heads, fates, k, u);
    UnderIsPass(order, heads, FRESH, fates, k + 1);
    SameRecord(s.view, t.view);
    v := t.view;
    PassOutcome(order, heads, FRESH, StatesUnder(order, heads, FRESH, fates, k + 1));
    VisitedSoFar(order, heads, fates, batches, b, k);
  }

  lemma SameRecord(v: View, w: View)
    requires AllSucceeded(v) && w.recorded == v.recorded
    ensures AllSucceeded(w)
  {
  }

  lemma FitSays(order: seq<WorkflowNode>, heads: map<string, Unit>, h: string)
    requires HeadsFit(order, heads) && h in heads
    ensures UniqueIds(order) && UniqueIds(heads[h]) && heads[h] != [] && heads[h][0].id == h && heads[h][0] in order
  {
    assert heads[h][0] in heads[h];
  }

  lemma TracksRun(order: seq<WorkflowNode>, heads: map<string, Unit>, v: View, fates: Fates, k: nat)
    requires k <= |order| && forall i :: 0 <= i <= k ==> OnTrack(v, Under(order, heads, v, fates, i))
    ensures forall i :: 0 <= i <= k ==> Under(order, heads, v, fates, i).running
    ensures AllSucceeded(Under(order, heads, v, fates, k).view) && Under(order, heads, v, fates, k).view.stray == v.stray
    ensures Under(order, heads, v, fates, k).view.recorded.Keys == v.recorded.Keys + IdSet(Flatten(Units(Under(order, heads, v, fates, k).visits)))
  {
    hide Under, Flatten, IdSet, Units, AllSucceeded;
  }

  /** What the general theory of passes says about the states so far. */
  lemma {:induction false} UnderFollows(order: seq<WorkflowNode>, heads: map<string, Unit>, v: View, fates: Fates, k: nat)
    requires HeadsFit(order, heads) && HeadsApart(order, heads) && k <= |order|
    requires forall i :: 0 <= i < k ==> Under(order, heads, v, fates, i).running
    ensures Ahead(order, heads, k, v.recorded.Keys, Under(order, heads, v, fates, k))
    ensures Following(order, heads, k, v.recorded.Keys, Under(order, heads, v, fates, k))
  {
    hide *;
    if k == 0 {
      StartFollows(order, heads, v, fates);
    } else {
      UnderFollows(order, heads, v, fates, k - 1);
      UnderNext(order, heads, v, fates, k - 1);
      StaysAhead(order, heads, k - 1, v.recorded.Keys, Under(order, heads, v, fates, k - 1), fates);
      MoveFollows(order, heads, k - 1, v.recorded.Keys, Under(order, heads, v, fates, k - 1), fates);
    }
  }

  lemma StartFollows(order: seq<WorkflowNode>, heads: map<string, Unit>, v: View, fates: Fates)
    ensures Ahead(order, heads, 0, v.recorded.Keys, Under(order, heads, v, fates, 0))
    ensures Following(order, heads, 0, v.recorded.Keys, Under(order, heads, v, fates, 0))
  {
    hide Walk;
    assert order[0..] == order && Units([]) == [] && IdSet(order[..0]) == {};
    assert [] + Walk(order, heads, v.recorded.Keys, {}) == Walk(order, heads, v.recorded.Keys, {});
  }

  /** The first node of the batch is not skipped, and its batch is untouched. */
  lemma HeadNow(order: seq<WorkflowNode>, heads: map<string, Unit>, fates: Fates, k: nat)
    requires HeadsFit(order, heads) && HeadsApart(order, heads) && k < |order| && order[k].id in heads
    requires forall i :: 0 <= i <= k ==> Under(order, heads, FRESH, fates, i).running
    ensures var s := Under(order, heads, FRESH, fates, k);
      order[k].id !in s.skip && Intact(heads[order[k].id], s.view.recorded.Keys)
    ensures Walk(order, heads, {}, {}) ==
      Units(Under(order, heads, FRESH, fates, k).visits) + ([heads[order[k].id]]
        + Walk(order[k + 1..], heads, {}, Under(order, heads, FRESH, fates, k).skip + IdSet(heads[order[k].id])))
  {
    UnderFollows(order, heads, FRESH, fates, k);
    var s, u := Under(order, heads, FRESH, fates, k), heads[order[k].id];
    FitSays(order, heads, order[k].id);
    NotSkippedBefore(order, heads, k, s);
    assert FRESH.recorded.Keys == {};
    IntactNow(order, heads, k, {}, s);
    assert order[k..][0] == order[k] && order[k..][1..] == order[k + 1..];
    hide Ahead, HeadsFit, HeadsApart, Under;
    WalkOnce(order[k..], heads, {}, s.skip);
  }

  lemma NotSkippedBefore(order: seq<WorkflowNode>, heads: map<string, Unit>, k: nat, s: PassState)
    requires HeadsFit(order, heads) && HeadsApart(order, heads) && k < |order| && order[k].id in heads
    requires Ahead(order, heads, k, {}, s)
    ensures order[k].id !in s.skip
  {
    var u := heads[order[k].id];
    FitSays(order, heads, order[k].id);
    assert u[0].id in IdSet(u);
    forall j | 0 <= j < k && order[j].id in heads ensures order[k].id !in IdSet(heads[order[j].id]) {
      assert order[j].id != order[k].id;
    }
    hide HeadsFit, HeadsApart;
  }

  lemma FailsHere(order: seq<WorkflowNode>, heads: map<string, Unit>, fates: Fates, k: nat, u: Unit)
    requires k < |order| && order[k].id in heads && heads[order[k].id] == u
    requires var s := Under(order, heads, FRESH, fates, k);
      && order[k].id !in s.skip && Intact(u, s.view.recorded.Keys)
      && var move := VisitBatch(s.view, u, fates); !move.goes && move.view.recorded == s.view.recorded && move.view.stray == s.view.stray
    ensures var s, t := Under(order, heads, FRESH, fates, k), Under(order, heads, FRESH, fates, k + 1);
      !t.running && t.view.recorded == s.view.recorded && t.view.stray == s.view.stray
  {
    hide VisitBatch, Intact;
  }

  lemma PassOutcome(order: seq<WorkflowNode>, heads: map<string, Unit>, v: View, states: seq<PassState>)
    requires IsPass(order, heads, v, states)
    ensures states != [] && Executed(order, heads, true, v, Outcome(states))
    ensures !states[|states| - 1].running ==> Outcome(states) == states[|states| - 1].view
  {
  }

  /** Up to the first node of batch b, the pass has visited the batches before. */
  lemma VisitedSoFar(order: seq<WorkflowNode>, heads: map<string, Unit>, fates: Fates, batches: seq<Unit>, b: nat, k: nat)
    requires Distinct(batches) && b < |batches| && k < |order| && order[k].id in heads && heads[order[k].id] == batches[b] && batches[b] != []
    requires exists rest :: batches == Units(Under(order, heads, FRESH, fates, k).visits) + ([batches[b]] + rest)
    ensures Units(Under(order, heads, FRESH, fates, k).visits) == batches[..b]
  {
    hide Distinct, Under;
    var units := Units(Under(order, heads, FRESH, fates, k).visits);
    var rest :| batches == units + ([batches[b]] + rest);
    assert batches[|units|] == batches[b];
    var x := batches[b][0].id;
    assert x in IdSet(batches[b]);
    SameUnit(batches, |units|, b, x);
  }

  /** Restarting at d drops d and all that depends on it. */
  lemma RestartDrops(nodes: seq<WorkflowNode>, v: View, d: string) returns (w: View)
    requires UniqueIds(nodes) && d in IdSet(nodes) && AllSucceeded(v) && !v.stray
    ensures RestartedFrom(nodes, d, v, w) && AllSucceeded(w)
    ensures w.recorded.Keys == set x | x in v.recorded.Keys && !(x in IdSet(nodes) && Reaches(DependencyGraph(nodes), x, d))
  {
    var dropped := Downstream(nodes, d);
    w := v.(recorded := v.recorded - dropped, outputs := v.outputs - dropped, status := TaskRunning);
    assert RestartedWith(v, dropped, v.recorded, w);
    UniqueEdges(nodes);
  }

  lemma UniqueEdges(nodes: seq<WorkflowNode>)
    requires UniqueIds(nodes)
    ensures EdgeGraph(nodes) == DependencyGraph(nodes)
  {
    UniqueIdsFixDictionary(nodes);
    var e, g := EdgeGraph(nodes), DependencyGraph(nodes);
    assert e.Keys == g.Keys;
    forall x | x in g ensures e[x] == g[x] {
      var n := Latest(nodes)[x];
      forall d | d in e[x] ensures d in g[x] {
        var m := EdgeFrom(nodes, x, d);
        ListedUnderId(nodes, m);
      }
      forall d | d in g[x] ensures d in e[x] {
        EdgeOf(nodes, n, d);
      }
    }
  }

  /** From its start on, a task fails in a pass, is restarted at a step, and starts a node in its next pass although one
      of the node's dependencies has never been run. */
  ghost predicate IsOvertaking(nodes: seq<WorkflowNode>, order: seq<WorkflowNode>, heads: map<string, Unit>,
                               v: View, step: string, w: View, states: seq<PassState>)
  {
    && Executed(order, heads, true, FRESH, v) && RestartedFrom(nodes, step, v, w) && IsPass(order, heads, w, states)
    && Overtakes(Visited(states), w.recorded.Keys)
  }

  /** If a plan is not resume-safe, this happens to it, and otherwise it does not, after any pass and restart. */
  lemma ResumeSafetyInHistories(nodes: seq<WorkflowNode>, order: seq<WorkflowNode>)
    requires UniqueIds(nodes) && IsDepthOrder(nodes, order) && Closed(DependencyGraph(nodes)) && Acyclic(DependencyGraph(nodes))
    ensures BatchesFrom(order, {}).Some? && NonEmpty(BatchesFrom(order, {}).value)
    ensures var batches := BatchesFrom(order, {}).value;
      ResumeSafe(order, batches) <==> forall v, step, w, states :: !IsOvertaking(nodes, order, HeadMap(batches), v, step, w, states)
  {
    hide *;
    PlanIsArranged(nodes, order);
    var batches := BatchesFrom(order, {}).value;
    if ResumeSafe(order, batches) {
      forall v, step, w, states ensures !IsOvertaking(nodes, order, HeadMap(batches), v, step, w, states) {
        SafeIsNotOvertaking(nodes, order, v, step, w, states);
      }
    } else {
      var b, n, d, k := Missing(order, batches);
      var v, w, states := OvertakingHistory(nodes, order, b, n, d, k);
    }
  }

  lemma SafeIsNotOvertaking(nodes: seq<WorkflowNode>, order: seq<WorkflowNode>, v: View, step: string, w: View, states: seq<PassState>)
    requires IsDepthOrder(nodes, order) && Closed(DependencyGraph(nodes)) && Acyclic(DependencyGraph(nodes))
    requires BatchesFrom(order, {}).Some? && NonEmpty(BatchesFrom(order, {}).value) && ResumeSafe(order, BatchesFrom(order, {}).value)
    ensures !IsOvertaking(nodes, order, HeadMap(BatchesFrom(order, {}).value), v, step, w, states)
  {
    hide Executed, RestartedFrom, ResumeSafe, IsDepthOrder, BatchesFrom, HeadMap, Overtakes, SafeUnits;
    var heads := HeadMap(BatchesFrom(order, {}).value);
    if IsOvertaking(nodes, order, heads, v, step, w, states) {
      hide IsPass;
      ResumedPassIsSafe(nodes, order, w, states);
      SafeNeverOvertakes(Visited(states), w.recorded.Keys);
    }
  }

  /** Batch b fails and is forgotten; the task is restarted at d; the next pass starts batch b again before d. */
  lemma OvertakingHistory(nodes: seq<WorkflowNode>, order: seq<WorkflowNode>, b: nat, n: WorkflowNode, d: string, k: nat)
    returns (v: View, w: View, states: seq<PassState>)
    requires UniqueIds(nodes) && IsDepthOrder(nodes, order) && Closed(DependencyGraph(nodes)) && Acyclic(DependencyGraph(nodes))
    requires BatchesFrom(order, {}).Some? && NonEmpty(BatchesFrom(order, {}).value)
    requires var batches := BatchesFrom(order, {}).value;
      && b < |batches| && |batches[b]| > 1 && n in batches[b] && d in n.dependsOn
      && k < |order| && order[k] == batches[b][0] && !Precedes(order, d, k)
    ensures IsOvertaking(nodes, order, HeadMap(BatchesFrom(order, {}).value), v, d, w, states)
  {
    hide *;
    var batches, g := BatchesFrom(order, {}).value, DependencyGraph(nodes);
    var heads := HeadMap(batches);
    PlanIsArranged(nodes, order);
    ArrangedSays(nodes, order, batches);
    DepthOrderIsLayered(nodes, order);
    FreshWalkIsBatches(nodes, order);
    HeadsOfPlan(nodes, order);
    HeadThere(batches, b);
    v := FirstPass(order, heads, batches, b, k);
    StepIsNode(nodes, order, batches, b, n, d);
    w := RestartDrops(nodes, v, d);
    RecordIs(nodes, order, batches, b, d, v.recorded.Keys, w.recorded.Keys);
    states := SecondPass(order, heads, w);
    RecordOvertakes(nodes, order, batches, b, n, d, k);
    Overtaken(nodes, order, heads, v, d, w, states);
  }

  lemma Overtaken(nodes: seq<WorkflowNode>, order: seq<WorkflowNode>, heads: map<string, Unit>, v: View, step: string, w: View, states: seq<PassState>)
    requires Executed(order, heads, true, FRESH, v) && RestartedFrom(nodes, step, v, w) && IsPass(order, heads, w, states)
    requires states != [] && Visited(states) == Walk(order, heads, w.recorded.Keys, {})
    requires Overtakes(Walk(order, heads, w.recorded.Keys, {}), w.recorded.Keys)
    ensures IsOvertaking(nodes, order, heads, v, step, w, states)
  {
    hide Executed, RestartedFrom, IsPass, Overtakes, Visited, Walk;
  }

  lemma StepIsNode(nodes: seq<WorkflowNode>, order: seq<WorkflowNode>, batches: seq<Unit>, b: nat, n: WorkflowNode, d: string)
    requires Arranged(nodes, order, batches) && Closed(DependencyGraph(nodes)) && b < |batches| && n in batches[b] && d in n.dependsOn
    ensures d in IdSet(nodes)
  {
    hide Distinct, UniqueIds, SafeUnits, UnitsWithin, HeadsMatch, HeadMap;
    WithinOrder(batches, order, b, n);
    OrderedEdge(nodes, order, n, d);
    assert n.id in DependencyGraph(nodes) && d in DependencyGraph(nodes);
  }

  lemma RecordIs(nodes: seq<WorkflowNode>, order: seq<WorkflowNode>, batches: seq<Unit>, b: nat, d: string, before: set<string>, after: set<string>)
    requires Arranged(nodes, order, batches) && b <= |batches| && before == IdSet(Flatten(batches[..b]))
    requires after == set x | x in before && !(x in IdSet(nodes) && Reaches(DependencyGraph(nodes), x, d))
    ensures after == RecordBefore(DependencyGraph(nodes), batches, b, d)
  {
    hide Distinct, SafeUnits, HeadsMatch, HeadMap, Reaches, Flatten, UniqueIds;
    forall x | x in before ensures x in IdSet(nodes) {
      var c, m := InEarlierBatch(batches, b, x);
      WithinOrder(batches, order, c, m);
      MemberId(order, m);
    }
  }

  lemma SecondPass(order: seq<WorkflowNode>, heads: map<string, Unit>, w: View) returns (states: seq<PassState>)
    requires HeadsFit(order, heads) && HeadsApart(order, heads) && AllSucceeded(w)
    ensures IsPass(order, heads, w, states) && states != [] && Visited(states) == Walk(order, heads, w.recorded.Keys, {})
  {
    hide *;
    var fates := Succeeds(order, {});
    FitIsUnique(order, heads);
    SucceedsLikely(order, {});
    GetsThrough(order, heads, w, |order|);
    TracksRun(order, heads, w, fates, |order|);
    UnderIsPass(order, heads, w, fates, |order|);
    states := StatesUnder(order, heads, w, fates, |order|);
    UnderFollows(order, heads, w, fates, |order|);
    VisitedAll(order, heads, w, fates, states);
  }

  lemma FitIsUnique(order: seq<WorkflowNode>, heads: map<string, Unit>)
    requires HeadsFit(order, heads)
    ensures UniqueIds(order) && HeadsWithin(order, heads)
  {
  }

  lemma VisitedAll(order: seq<WorkflowNode>, heads: map<string, Unit>, w: View, fates: Fates, states: seq<PassState>)
    requires states == StatesUnder(order, heads, w, fates, |order|) && Under(order, heads, w, fates, |order|).running
    requires Following(order, heads, |order|, w.recorded.Keys, Under(order, heads, w, fates, |order|))
    ensures Visited(states) == Walk(order, heads, w.recorded.Keys, {})
  {
    hide Under;
    assert order[|order|..] == [];
    VisitedAre(states);
  }

  // ----- The smallest plans in which it happens -----

  /** Two groups of two, with one dependency, from the second member of one group to the second member of the other. */
  ghost predicate CrossedPairs(a: WorkflowNode, b: WorkflowNode, c: WorkflowNode, e: WorkflowNode)
  {
    && Before(a.id, b.id) && Before(b.id, c.id) && e.id != a.id && e.id != b.id && e.id != c.id
    && a.dependsOn == [] && b.dependsOn == [] && c.dependsOn == [] && e.dependsOn == [c.id]
    && a.parallelGroup == c.parallelGroup != "" && b.parallelGroup == e.parallelGroup != "" && a.parallelGroup != b.parallelGroup
  }

  lemma PairsDiffer(a: WorkflowNode, b: WorkflowNode, c: WorkflowNode, e: WorkflowNode)
    requires CrossedPairs(a, b, c, e)
    ensures a.id != b.id && a.id != c.id && b.id != c.id && Before(a.id, b.id) && Before(b.id, c.id) && Before(a.id, c.id)
    ensures e.id != a.id && e.id != b.id && e.id != c.id
    ensures UniqueIds([a, b, c, e]) && IdSet([a, b, c, e]) == {a.id, b.id, c.id, e.id}
  {
    BeforeIsStrict(a.id, b.id);
    BeforeIsStrict(b.id, c.id);
    BeforeIsTransitive(a.id, b.id, c.id);
    BeforeIsStrict(a.id, c.id);
    hide Before;
    var nodes := [a, b, c, e];
    assert nodes[0] == a && nodes[1] == b && nodes[2] == c && nodes[3] == e;
  }

  lemma PairsGraph(a: WorkflowNode, b: WorkflowNode, c: WorkflowNode, e: WorkflowNode)
    requires CrossedPairs(a, b, c, e)
    ensures DependencyGraph([a, b, c, e]) == map[a.id := {}, b.id := {}, c.id := {}, e.id := {c.id}]
  {
    hide Latest, IdSet, UniqueIds, Before;
    PairsDiffer(a, b, c, e);
    var nodes := [a, b, c, e];
    ListedUnderId(nodes, a);
    ListedUnderId(nodes, b);
    ListedUnderId(nodes, c);
    ListedUnderId(nodes, e);
    assert Dependencies(a) == {} && Dependencies(b) == {} && Dependencies(c) == {} && Dependencies(e) == {c.id};
    assert DependencyGraph(nodes).Keys == {a.id, b.id, c.id, e.id};
  }

  lemma PairsLeveled(a: string, b: string, c: string, e: string, g: Graph) returns (level: map<string, nat>)
    requires a != b && b != c && a != c && e != a && e != b && e != c && g == map[a := {}, b := {}, c := {}, e := {c}]
    ensures level.Keys == {a, b, c, e} && level[a] == level[b] == level[c] == 0 && level[e] == 1
    ensures Leveled(g, level) && level.Keys == g.Keys
  {
    level := map[a := 0, b := 0, c := 0, e := 1];
  }

  lemma PairsSorted(a: WorkflowNode, b: WorkflowNode, c: WorkflowNode, e: WorkflowNode, level: map<string, nat>)
    requires Before(a.id, b.id) && Before(b.id, c.id) && Before(a.id, c.id) && e.id !in {a.id, b.id, c.id}
    requires level.Keys == {a.id, b.id, c.id, e.id} && level[a.id] == level[b.id] == level[c.id] == 0 && level[e.id] == 1
    ensures SortedByLevel(level, [a, b, c, e])
  {
    hide Before;
    var nodes := [a, b, c, e];
    assert nodes[0] == a && nodes[1] == b && nodes[2] == c && nodes[3] == e;
  }

  lemma PairsInOrder(a: WorkflowNode, b: WorkflowNode, c: WorkflowNode, e: WorkflowNode)
    requires CrossedPairs(a, b, c, e)
    ensures IsDepthOrder([a, b, c, e], [a, b, c, e])
    ensures Closed(DependencyGraph([a, b, c, e])) && Acyclic(DependencyGraph([a, b, c, e]))
  {
    PairsDiffer(a, b, c, e);
    hide *;
    PairsGraph(a, b, c, e);
    var nodes := [a, b, c, e];
    var level := PairsLeveled(a.id, b.id, c.id, e.id, DependencyGraph(nodes));
    PairsSorted(a, b, c, e, level);
    ListsItself(nodes);
    LeveledIsAcyclic(DependencyGraph(nodes), level);
    LevelsGiveDepthOrder(nodes, level, nodes);
  }

  lemma ListsItself(nodes: seq<WorkflowNode>)
    requires UniqueIds(nodes)
    ensures Latest(nodes).Keys == IdSet(nodes) && SameNodes(Latest(nodes), nodes)
  {
    forall i | 0 <= i < |nodes| ensures nodes[i].id in Latest(nodes) && nodes[i] == Latest(nodes)[nodes[i].id] {
      ListedUnderId(nodes, nodes[i]);
    }
    hide UniqueIds;
  }

  lemma PairIds(m: WorkflowNode, n: WorkflowNode)
    ensures IdSet([m, n]) == {m.id, n.id}
  {
    assert [m, n][0] == m && [m, n][1] == n;
  }

  lemma ReadyStep(n: WorkflowNode, rest: seq<WorkflowNode>, done: set<string>)
    ensures ReadyNodes([n] + rest, done) == if IsReady(n, done) then [n] + ReadyNodes(rest, done) else ReadyNodes(rest, done)
  {
    assert ([n] + rest)[1..] == rest;
  }

  lemma GroupStep(n: WorkflowNode, rest: seq<WorkflowNode>, group: string)
    ensures InGroup([n] + rest, group) == if n.parallelGroup == group then [n] + InGroup(rest, group) else InGroup(rest, group)
  {
    assert ([n] + rest)[1..] == rest;
  }

  lemma WithoutStep(n: WorkflowNode, rest: seq<WorkflowNode>, done: set<string>)
    ensures Without([n] + rest, done) == if n.id in done then Without(rest, done) else [n] + Without(rest, done)
  {
    assert ([n] + rest)[1..] == rest;
  }

  lemma Sliced(a: WorkflowNode, b: WorkflowNode, c: WorkflowNode, e: WorkflowNode)
    ensures [a] + [b, c, e] == [a, b, c, e] && [b] + [c, e] == [b, c, e] && [c] + [e] == [c, e] && [e] + [] == [e]
  {
  }

  lemma FirstReady(a: WorkflowNode, b: WorkflowNode, c: WorkflowNode, e: WorkflowNode)
    requires CrossedPairs(a, b, c, e)
    ensures ReadyNodes([a, b, c, e], {}) == [a, b, c]
  {
    assert IsReady(a, {}) && IsReady(b, {}) && IsReady(c, {}) && !IsReady(e, {}) by {
      assert c.id in e.dependsOn;
    }
    hide *;
    Sliced(a, b, c, e);
    NoneLeft({}, "");
    ReadyStep(e, [], {});
    ReadyStep(c, [e], {});
    ReadyStep(b, [c, e], {});
    ReadyStep(a, [b, c, e], {});
    assert [c] + [] == [c] && [b] + [c] == [b, c] && [a] + [b, c] == [a, b, c];
  }

  lemma FirstBatch(a: WorkflowNode, b: WorkflowNode, c: WorkflowNode)
    requires a.parallelGroup == c.parallelGroup != "" && a.parallelGroup != b.parallelGroup
    ensures BatchOf([a, b, c]) == [a, c]
  {
    hide InGroup;
    NoneLeft({}, a.parallelGroup);
    assert [c] + [] == [c] && [b] + [c] == [b, c] && [a] + [b, c] == [a, b, c] && [a] + [c] == [a, c];
    GroupStep(c, [], a.parallelGroup);
    GroupStep(b, [c], a.parallelGroup);
    GroupStep(a, [b, c], a.parallelGroup);
  }

  lemma WithoutFirst(a: WorkflowNode, b: WorkflowNode, c: WorkflowNode, e: WorkflowNode)
    requires CrossedPairs(a, b, c, e)
    ensures Without([a, b, c, e], {a.id, c.id}) == [b, e]
  {
    PairsDiffer(a, b, c, e);
    hide *;
    Sliced(a, b, c, e);
    NoneLeft({a.id, c.id}, "");
    WithoutStep(e, [], {a.id, c.id});
    WithoutStep(c, [e], {a.id, c.id});
    WithoutStep(b, [c, e], {a.id, c.id});
    WithoutStep(a, [b, c, e], {a.id, c.id});
    assert [b] + [e] == [b, e];
  }

  lemma NoneLeft(done: set<string>, group: string)
    ensures ReadyNodes([], done) == [] && InGroup([], group) == [] && Without([], done) == []
  {
  }

  lemma SecondBatch(a: WorkflowNode, b: WorkflowNode, c: WorkflowNode, e: WorkflowNode)
    requires CrossedPairs(a, b, c, e)
    ensures ReadyNodes([b, e], {a.id, c.id}) == [b, e] && BatchOf([b, e]) == [b, e] && Without([b, e], {b.id, e.id}) == []
  {
    hide ReadyNodes, InGroup, Without, Before;
    assert [b] + [e] == [b, e] && [e] + [] == [e];
    NoneLeft({a.id, c.id}, b.parallelGroup);
    NoneLeft({b.id, e.id}, b.parallelGroup);
    ReadyStep(e, [], {a.id, c.id});
    ReadyStep(b, [e], {a.id, c.id});
    GroupStep(e, [], b.parallelGroup);
    GroupStep(b, [e], b.parallelGroup);
    WithoutStep(e, [], {b.id, e.id});
    WithoutStep(b, [e], {b.id, e.id});
  }

  lemma BatchesStep(pending: seq<WorkflowNode>, done: set<string>, batch: Unit, ids: set<string>, rest: seq<Unit>)
    requires pending != [] && ReadyNodes(pending, done) != [] && BatchOf(ReadyNodes(pending, done)) == batch && IdSet(batch) == ids
    requires BatchesFrom(Without(pending, ids), done + ids) == Some(rest)
    ensures BatchesFrom(pending, done) == Some([batch] + rest)
  {
  }

  lemma PairsBatches(a: WorkflowNode, b: WorkflowNode, c: WorkflowNode, e: WorkflowNode)
    requires CrossedPairs(a, b, c, e)
    ensures BatchesFrom([a, b, c, e], {}) == Some([[a, c], [b, e]])
  {
    assert BatchesFrom([], {a.id, c.id} + {b.id, e.id}) == Some([]);
    assert a.parallelGroup == c.parallelGroup != "" && a.parallelGroup != b.parallelGroup;
    hide *;
    FirstReady(a, b, c, e);
    FirstBatch(a, b, c);
    WithoutFirst(a, b, c, e);
    SecondBatch(a, b, c, e);
    PairIds(a, c);
    PairIds(b, e);
    assert {} + {a.id, c.id} == {a.id, c.id};
    BatchesStep([b, e], {a.id, c.id}, [b, e], {b.id, e.id}, []);
    assert [[b, e]] + [] == [[b, e]];
    BatchesStep([a, b, c, e], {}, [a, c], {a.id, c.id}, [[b, e]]);
    assert [[a, c]] + [[b, e]] == [[a, c], [b, e]];
  }

  /** Such a plan is acceptable but not resume-safe: it has a history in which e is started before c has ever been run. */
  lemma ResumeCanOvertake(a: WorkflowNode, b: WorkflowNode, c: WorkflowNode, e: WorkflowNode)
    requires CrossedPairs(a, b, c, e)
    ensures IsDepthOrder([a, b, c, e], [a, b, c, e])
    ensures Closed(DependencyGraph([a, b, c, e])) && Acyclic(DependencyGraph([a, b, c, e]))
    ensures BatchesFrom([a, b, c, e], {}) == Some([[a, c], [b, e]]) && NonEmpty([[a, c], [b, e]])
    ensures exists v, w, states :: IsOvertaking([a, b, c, e], [a, b, c, e], HeadMap([[a, c], [b, e]]), v, c.id, w, states)
  {
    PairsDiffer(a, b, c, e);
    assert e in [b, e] && [b, e][0] == b && c.id in e.dependsOn;
    hide *;
    var nodes := [a, b, c, e];
    PairsInOrder(a, b, c, e);
    PairsBatches(a, b, c, e);
    PlanIsArranged(nodes, nodes);
    assert [[a, c], [b, e]][1] == [b, e];
    BehindHead(nodes, c.id);
    var v, w, states := OvertakingHistory(nodes, nodes, 1, e, c.id, 1);
  }

  lemma BehindHead(order: seq<WorkflowNode>, d: string)
    requires |order| > 1 && order[0].id != d
    ensures !Precedes(order, d, 1)
  {
  }
}
