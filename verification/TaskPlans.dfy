/** Task plans: validation, the dependency order of the nodes, and what a resumed step drops. */
module TaskPlans {
  import opened Ids
  import opened Graphs

  /** One node of a plan. An empty parallel group means none; a reference is the dotted path inside one
      input placeholder, already split at the dots. */
  datatype WorkflowNode = WorkflowNode(
    id: string,
    workflowId: string,
    dependsOn: seq<string>,
    parallelGroup: string,
    references: seq<seq<string>>,
    conditional: bool,
    maxAttempts: int,
    maxIterations: int,
    continueOnFailure: bool)

  datatype TaskPlan = TaskPlan(id: string, version: string, nodes: seq<WorkflowNode>)

  datatype PlanError = Incomplete | DuplicateId | MissingWorkflow | UnknownDependency | DependentGroup | DependencyCycle

  function IdSet(nodes: seq<WorkflowNode>): set<string>
  {
    set i | 0 <= i < |nodes| :: nodes[i].id
  }

  lemma MemberId(nodes: seq<WorkflowNode>, n: WorkflowNode)
    requires n in nodes
    ensures n.id in IdSet(nodes)
  {
    var i :| 0 <= i < |nodes| && nodes[i] == n;
  }

  function Dependencies(node: WorkflowNode): set<string>
  {
    set d | d in node.dependsOn
  }

  /** A dictionary from id to node: a later node replaces an earlier one with the same id. */
  function Latest(nodes: seq<WorkflowNode>): (m: map<string, WorkflowNode>)
    ensures m.Keys == IdSet(nodes)
    ensures forall n :: n in m ==> m[n].id == n && m[n] in nodes
  {
    if nodes == [] then map[]
    else
      var last := nodes[|nodes| - 1];
      assert nodes == nodes[..|nodes| - 1] + [last];
      Latest(nodes[..|nodes| - 1])[last.id := last]
  }

  ghost function DependencyGraph(nodes: seq<WorkflowNode>): Graph
  {
    var m := Latest(nodes);
    map n | n in m :: Dependencies(m[n])
  }

  ghost predicate UniqueIds(nodes: seq<WorkflowNode>)
  {
    forall i, j :: 0 <= i < j < |nodes| ==> nodes[i].id != nodes[j].id
  }

  // ----- The dependency order -----

  /** How a node compares with another in the order: by the length of its longest dependency chain, then by id. */
  ghost predicate DeeperThenLater(g: Graph, a: string, b: string)
  {
    DepthOf(g, a) < DepthOf(g, b) || (DepthOf(g, a) == DepthOf(g, b) && Before(a, b))
  }

  ghost predicate SameNodes(m: map<string, WorkflowNode>, order: seq<WorkflowNode>)
  {
    IdSet(order) == m.Keys && forall i :: 0 <= i < |order| ==> order[i].id in m && order[i] == m[order[i].id]
  }

  /** The order holds each node of the plan once, sorted strictly by depth and id. */
  ghost predicate IsDepthOrder(nodes: seq<WorkflowNode>, order: seq<WorkflowNode>)
  {
    && SameNodes(Latest(nodes), order)
    && forall i, j :: 0 <= i < j < |order| ==> DeeperThenLater(DependencyGraph(nodes), order[i].id, order[j].id)
  }

  /** The library sort, on the ids of one round. */
  method SortedIds(ids: set<string>) returns (sorted: seq<string>)
    ensures forall i, j :: 0 <= i < j < |sorted| ==> Before(sorted[i], sorted[j])
    ensures (set i | 0 <= i < |sorted| :: sorted[i]) == ids
  {
    sorted := [];
    var rest := ids;
    while rest != {}
      invariant rest <= ids
      invariant forall i, j :: 0 <= i < j < |sorted| ==> Before(sorted[i], sorted[j])
      invariant (set i | 0 <= i < |sorted| :: sorted[i]) == ids - rest
      decreases |rest|
    {
      var x :| x in rest;
      var next := Inserted(sorted, x);
      rest := rest - {x};
      assert (set i | 0 <= i < |next| :: next[i]) == (set i | 0 <= i < |sorted| :: sorted[i]) + {x};
      sorted := next;
    }
  }

  method Inserted(sorted: seq<string>, x: string) returns (r: seq<string>)
    requires forall i, j :: 0 <= i < j < |sorted| ==> Before(sorted[i], sorted[j])
    requires x !in sorted
    ensures forall i, j :: 0 <= i < j < |r| ==> Before(r[i], r[j])
    ensures (set i | 0 <= i < |r| :: r[i]) == (set i | 0 <= i < |sorted| :: sorted[i]) + {x}
  {
    var k := 0;
    while k < |sorted| && Before(sorted[k], x)
      invariant 0 <= k <= |sorted|
      invariant forall i :: 0 <= i < k ==> Before(sorted[i], x)
    {
      k := k + 1;
    }
    r := sorted[..k] + [x] + sorted[k..];
    forall j | k <= j < |sorted| ensures Before(x, sorted[j]) {
      BeforeIsTotal(x, sorted[k]);
      if j > k {
        BeforeIsTransitive(x, sorted[k], sorted[j]);
      }
    }
    assert forall i :: 0 <= i < |sorted| ==> sorted[i] == r[if i < k then i else i + 1];
    assert r[k] == x;
  }

  ghost predicate LevelBefore(level: map<string, nat>, a: string, b: string)
  {
    a in level && b in level && (level[a] < level[b] || (level[a] == level[b] && Before(a, b)))
  }

  ghost predicate SortedByLevel(level: map<string, nat>, order: seq<WorkflowNode>)
  {
    forall i, j :: 0 <= i < j < |order| ==> LevelBefore(level, order[i].id, order[j].id)
  }

  ghost function Unplaced(m: map<string, WorkflowNode>, level: map<string, nat>): map<string, WorkflowNode>
  {
    map n | n in m && n !in level :: m[n]
  }

  ghost function Removed(m: map<string, WorkflowNode>, ids: set<string>): map<string, WorkflowNode>
  {
    map n | n in m && n !in ids :: m[n]
  }

  lemma UnplacedShrinks(m: map<string, WorkflowNode>, level: map<string, nat>, next: map<string, nat>, ready: set<string>)
    requires next.Keys == level.Keys + ready
    ensures Removed(Unplaced(m, level), ready) == Unplaced(m, next)
  {
  }

  /** The pending nodes whose dependencies are all done. */
  function Ready(pending: map<string, WorkflowNode>, done: set<string>): (ready: set<string>)
    ensures ready <= pending.Keys
  {
    set n | n in pending && Dependencies(pending[n]) <= done
  }

  /** The nodes that become ready in a round are the ones the next level adds. */
  lemma ReadyIsNextLevel(nodes: seq<WorkflowNode>, level: map<string, nat>, r: nat, ready: set<string>)
    requires LeveledBelow(DependencyGraph(nodes), level, r)
    requires ready == Ready(Unplaced(Latest(nodes), level), level.Keys)
    ensures NextRound(DependencyGraph(nodes), level, r).Keys == level.Keys + ready
  {
    hide Leveled, Latest, LeveledBelow;
    var g := DependencyGraph(nodes);
    LevelsBelow(g, level, r);
    forall n | n in g ensures SettledBelow(g, level, n, r) <==> g[n] <= level.Keys {
    }
  }

  lemma LevelsBelow(g: Graph, level: map<string, nat>, r: nat)
    requires LeveledBelow(g, level, r)
    ensures level.Keys <= g.Keys && forall n :: n in level ==> level[n] < r
  {
  }

  lemma RoundStaysSorted(g: Graph, level: map<string, nat>, r: nat, order: seq<WorkflowNode>, added: seq<WorkflowNode>)
    requires LeveledBelow(g, level, r)
    requires SortedByLevel(level, order) && IdSet(order) <= level.Keys
    requires forall i :: 0 <= i < |added| ==> added[i].id in NextRound(g, level, r) && added[i].id !in level
    requires forall i, j :: 0 <= i < j < |added| ==> Before(added[i].id, added[j].id)
    ensures SortedByLevel(NextRound(g, level, r), order + added)
  {
    var next := NextRound(g, level, r);
    var all := order + added;
    forall i, j | 0 <= i < j < |all| ensures LevelBefore(next, all[i].id, all[j].id) {
      if j < |order| {
        assert LevelBefore(level, order[i].id, order[j].id);
      } else if i < |order| {
        assert order[i].id in IdSet(order);
        assert added[j - |order|].id in next;
      } else {
        assert Before(added[i - |order|].id, added[j - |order|].id);
      }
    }
  }

  lemma LevelsGiveDepthOrder(nodes: seq<WorkflowNode>, level: map<string, nat>, order: seq<WorkflowNode>)
    requires Leveled(DependencyGraph(nodes), level) && level.Keys == Latest(nodes).Keys
    requires SortedByLevel(level, order) && SameNodes(Latest(nodes), order)
    ensures IsDepthOrder(nodes, order)
  {
    var g := DependencyGraph(nodes);
    forall i, j | 0 <= i < j < |order| ensures DeeperThenLater(g, order[i].id, order[j].id) {
      var a, b := order[i].id, order[j].id;
      assert LevelBefore(level, a, b);
      LevelIsDepth(g, level, a);
      LevelIsDepth(g, level, b);
    }
  }

  ghost predicate IsRound(pending: map<string, WorkflowNode>, ready: set<string>, added: seq<WorkflowNode>)
  {
    && (forall i :: 0 <= i < |added| ==> added[i].id in pending && added[i] == pending[added[i].id])
    && (forall i, j :: 0 <= i < j < |added| ==> Before(added[i].id, added[j].id))
    && IdSet(added) == ready
  }

  /** Moves one round from the pending nodes to the end of the order. */
  method AppendRound(ordered: seq<WorkflowNode>, pending: map<string, WorkflowNode>, ready: set<string>)
    returns (ordered': seq<WorkflowNode>, pending': map<string, WorkflowNode>, ghost added: seq<WorkflowNode>)
    requires ready <= pending.Keys && forall n :: n in pending ==> pending[n].id == n
    ensures ordered' == ordered + added && IsRound(pending, ready, added)
    ensures pending' == Removed(pending, ready)
  {
    var batch := SortedIds(ready);
    ordered', pending' := ordered, pending;
    added := [];
    for i := 0 to |batch|
      invariant |added| == i && ordered' == ordered + added
      invariant forall k :: 0 <= k < i ==> batch[k] in pending && added[k] == pending[batch[k]]
      invariant pending' == map n | n in pending && n !in batch[..i] :: pending[n]
    {
      assert batch[i] in ready;
      assert batch[i] !in batch[..i] by {
        forall k | 0 <= k < i ensures batch[k] != batch[i] {
          BeforeIsStrict(batch[k], batch[i]);
        }
      }
      added := added + [pending'[batch[i]]];
      ordered' := ordered' + [pending'[batch[i]]];
      pending' := map n | n in pending' && n != batch[i] :: pending'[n];
    }
    assert batch[..|batch|] == batch;
    assert IdSet(added) == ready by {
      forall x | x in ready ensures x in IdSet(added) {
        var i :| 0 <= i < |batch| && batch[i] == x;
        assert added[i].id == x;
      }
    }
  }

  /** What the rounds so far have established. */
  ghost predicate RoundsDone(nodes: seq<WorkflowNode>, level: map<string, nat>, r: nat, ordered: seq<WorkflowNode>)
  {
    && LeveledBelow(DependencyGraph(nodes), level, r)
    && IdSet(ordered) == level.Keys
    && (forall i :: 0 <= i < |ordered| ==> ordered[i].id in Latest(nodes) && ordered[i] == Latest(nodes)[ordered[i].id])
    && SortedByLevel(level, ordered)
  }

  lemma RoundKeepsDone(nodes: seq<WorkflowNode>, level: map<string, nat>, r: nat, ordered: seq<WorkflowNode>,
                       ready: set<string>, added: seq<WorkflowNode>)
    requires RoundsDone(nodes, level, r, ordered)
    requires ready == Ready(Unplaced(Latest(nodes), level), level.Keys)
    requires IsRound(Unplaced(Latest(nodes), level), ready, added)
    ensures RoundsDone(nodes, NextRound(DependencyGraph(nodes), level, r), r + 1, ordered + added)
    ensures NextRound(DependencyGraph(nodes), level, r).Keys == level.Keys + ready
  {
    var g := DependencyGraph(nodes);
    ReadyIsNextLevel(nodes, level, r, ready);
    RoundKeepsLevels(g, level, r);
    forall i | 0 <= i < |added| ensures added[i].id in ready {
      assert added[i].id in IdSet(added);
    }
    RoundStaysSorted(g, level, r, ordered, added);
    AppendedIds(ordered, added);
  }

  /** Rounds of ready nodes, each round sorted by id. Fails when a round is empty although nodes are left. */
  method OrderedNodes(nodes: seq<WorkflowNode>) returns (r: Option<seq<WorkflowNode>>)
    ensures r.Some? <==> Closed(DependencyGraph(nodes)) && Acyclic(DependencyGraph(nodes))
    ensures r.Some? ==> IsDepthOrder(nodes, r.value)
  {
    var pending: map<string, WorkflowNode> := Latest(nodes);
    var ordered: seq<WorkflowNode> := [];
    ghost var level: map<string, nat> := map[];
    ghost var round: nat := 0;
    while pending.Keys != {}
      invariant RoundsDone(nodes, level, round, ordered)
      invariant pending == Unplaced(Latest(nodes), level)
      decreases |pending.Keys|
    {
      var ready := Ready(pending, IdSet(ordered));
      if ready == {} {
        NothingReady(nodes, level, round, ordered, ready);
        return None;
      }
      ghost var added;
      ghost var left, before := pending, ordered;
      ordered, pending, added := AppendRound(ordered, pending, ready);
      RoundKeepsDone(nodes, level, round, before, ready, added);
      UnplacedShrinks(Latest(nodes), level, NextRound(DependencyGraph(nodes), level, round), ready);
      level, round := NextRound(DependencyGraph(nodes), level, round), round + 1;
      FewerKeys(pending, left, ready);
    }
    AllPlaced(nodes, level, round, ordered);
    return Some(ordered);
  }

  lemma AllPlaced(nodes: seq<WorkflowNode>, level: map<string, nat>, r: nat, ordered: seq<WorkflowNode>)
    requires RoundsDone(nodes, level, r, ordered) && Unplaced(Latest(nodes), level).Keys == {}
    ensures Closed(DependencyGraph(nodes)) && Acyclic(DependencyGraph(nodes))
    ensures IsDepthOrder(nodes, ordered)
  {
    forall n | n in Latest(nodes) ensures n in level {
      assert n !in Unplaced(Latest(nodes), level).Keys;
    }
    assert level.Keys == Latest(nodes).Keys;
    LeveledIsAcyclic(DependencyGraph(nodes), level);
    LevelsGiveDepthOrder(nodes, level, ordered);
  }

  lemma NothingReady(nodes: seq<WorkflowNode>, level: map<string, nat>, r: nat, ordered: seq<WorkflowNode>, ready: set<string>)
    requires RoundsDone(nodes, level, r, ordered) && Unplaced(Latest(nodes), level).Keys != {}
    requires ready == Ready(Unplaced(Latest(nodes), level), level.Keys)
    requires ready == {}
    ensures !(Closed(DependencyGraph(nodes)) && Acyclic(DependencyGraph(nodes)))
  {
    var g := DependencyGraph(nodes);
    ReadyIsNextLevel(nodes, level, r, ready);
    if Closed(g) && Acyclic(g) {
      var n :| n in Unplaced(Latest(nodes), level).Keys;
      RoundMakesProgress(g, level, r);
      assert false;
    }
  }

  lemma AppendedIds(before: seq<WorkflowNode>, added: seq<WorkflowNode>)
    ensures IdSet(before + added) == IdSet(before) + IdSet(added)
  {
    var all := before + added;
    forall x | x in IdSet(before) + IdSet(added) ensures x in IdSet(all) {
      if i :| 0 <= i < |before| && before[i].id == x {
        assert all[i].id == x;
      } else {
        var i :| 0 <= i < |added| && added[i].id == x;
        assert all[|before| + i].id == x;
      }
    }
  }

  lemma FewerKeys(after: map<string, WorkflowNode>, before: map<string, WorkflowNode>, removed: set<string>)
    requires removed != {} && removed <= before.Keys && after == Removed(before, removed)
    ensures |after.Keys| < |before.Keys|
  {
    var x :| x in removed;
    assert x in before.Keys && x !in after.Keys;
    SmallerSet(after.Keys, before.Keys);
  }

  lemma DeeperThenLaterIsStrict(g: Graph, a: string, b: string)
    requires DeeperThenLater(g, a, b)
    ensures a != b && !DeeperThenLater(g, b, a)
  {
    BeforeIsStrict(a, b);
    BeforeIsStrict(b, a);
  }

  /** The order depends only on which nodes the plan holds, not on how they are listed. */
  lemma OrderIgnoresListing(nodes: seq<WorkflowNode>, others: seq<WorkflowNode>, o: seq<WorkflowNode>, p: seq<WorkflowNode>)
    requires Latest(nodes) == Latest(others)
    requires IsDepthOrder(nodes, o) && IsDepthOrder(others, p)
    ensures o == p
  {
    var g := DependencyGraph(nodes);
    var less := (a: string, b: string) => DeeperThenLater(g, a, b);
    forall a, b | less(a, b) ensures a != b && !less(b, a) {
      DeeperThenLaterIsStrict(g, a, b);
    }
    var oIds, pIds := seq(|o|, i requires 0 <= i < |o| => o[i].id), seq(|p|, i requires 0 <= i < |p| => p[i].id);
    forall x ensures x in oIds <==> x in pIds {
      IdsListed(o, oIds, x);
      IdsListed(p, pIds, x);
    }
    SortedIsUnique(less, oIds, pIds);
    forall i | 0 <= i < |o| ensures o[i] == p[i] {
      assert oIds[i] == pIds[i];
    }
  }

  lemma IdsListed(nodes: seq<WorkflowNode>, ids: seq<string>, x: string)
    requires |ids| == |nodes| && forall i :: 0 <= i < |nodes| ==> ids[i] == nodes[i].id
    ensures x in ids <==> x in IdSet(nodes)
  {
    if x in IdSet(nodes) {
      var i :| 0 <= i < |nodes| && nodes[i].id == x;
      assert ids[i] == x;
    }
  }

  lemma HasMember(p: seq<string>)
    requires p != []
    ensures exists x :: x in p
  {
    assert p[0] in p;
  }

  /** Two strictly sorted sequences with the same members are equal. */
  lemma {:induction false} SortedIsUnique(less: (string, string) -> bool, o: seq<string>, p: seq<string>)
    requires forall a, b :: less(a, b) ==> a != b && !less(b, a)
    requires forall i, j :: 0 <= i < j < |o| ==> less(o[i], o[j])
    requires forall i, j :: 0 <= i < j < |p| ==> less(p[i], p[j])
    requires forall x :: x in o <==> x in p
    ensures o == p
    decreases |o|
  {
    if o == [] {
      if p != [] {
        HasMember(p);
        assert false;
      }
    } else {
      assert o[0] in p && p != [] && p[0] in o;
      forall x ensures x in o[1..] <==> x in p[1..] {
        MinimumFirst(less, o, p);
        if x in o[1..] {
          assert x in p && x != o[0];
        }
        if x in p[1..] {
          assert x in o && x != p[0];
        }
      }
      MinimumFirst(less, o, p);
      SortedIsUnique(less, o[1..], p[1..]);
    }
  }

  lemma MinimumFirst(less: (string, string) -> bool, o: seq<string>, p: seq<string>)
    requires forall a, b :: less(a, b) ==> a != b && !less(b, a)
    requires forall i, j :: 0 <= i < j < |o| ==> less(o[i], o[j])
    requires forall i, j :: 0 <= i < j < |p| ==> less(p[i], p[j])
    requires o != [] && p != [] && o[0] in p && p[0] in o
    ensures o[0] == p[0]
  {
    var i :| 0 <= i < |p| && p[i] == o[0];
    var j :| 0 <= j < |o| && o[j] == p[0];
    if i > 0 && j > 0 {
      assert false;
    }
  }

  /** Listing uniquely named nodes differently leaves the dictionary the same. */
  lemma {:induction false} UniqueIdsFixDictionary(nodes: seq<WorkflowNode>)
    requires UniqueIds(nodes)
    ensures forall i :: 0 <= i < |nodes| ==> nodes[i].id in Latest(nodes) && Latest(nodes)[nodes[i].id] == nodes[i]
  {
    if nodes != [] {
      var front, last := nodes[..|nodes| - 1], nodes[|nodes| - 1];
      UniqueIdsFixDictionary(front);
      assert Latest(nodes) == Latest(front)[last.id := last];
      forall i | 0 <= i < |front| ensures nodes[i] == front[i] && nodes[i].id != last.id {
      }
    }
  }

  lemma PermutedListing(nodes: seq<WorkflowNode>, others: seq<WorkflowNode>)
    requires UniqueIds(nodes) && UniqueIds(others)
    requires forall n :: n in nodes <==> n in others
    ensures Latest(nodes) == Latest(others)
  {
    hide UniqueIds, IdSet, Latest;
    forall id | id in Latest(nodes) ensures id in Latest(others) && Latest(others)[id] == Latest(nodes)[id] {
      ListedUnderId(others, Latest(nodes)[id]);
    }
    forall id | id in Latest(others) ensures id in Latest(nodes) {
      ListedUnderId(nodes, Latest(others)[id]);
    }
  }

  lemma ListedUnderId(nodes: seq<WorkflowNode>, n: WorkflowNode)
    requires UniqueIds(nodes) && n in nodes
    ensures n.id in Latest(nodes) && Latest(nodes)[n.id] == n
  {
    UniqueIdsFixDictionary(nodes);
    var i :| 0 <= i < |nodes| && nodes[i] == n;
  }

  // ----- A depth order lists dependencies first -----

  lemma EdgeGoesDeeper(g: Graph, a: string, d: string)
    requires Closed(g) && Acyclic(g) && Edge(g, a, d)
    ensures d in g && DepthOf(g, d) < DepthOf(g, a)
  {
    var level := AcyclicIsLeveled(g, map[], 0);
    LevelIsDepth(g, level, a);
    LevelIsDepth(g, level, d);
  }

  ghost predicate Precedes(order: seq<WorkflowNode>, d: string, k: nat)
    requires k <= |order|
  {
    exists j :: 0 <= j < k && order[j].id == d
  }

  lemma DependencyPrecedes(nodes: seq<WorkflowNode>, order: seq<WorkflowNode>, k: nat, d: string)
    requires IsDepthOrder(nodes, order) && Closed(DependencyGraph(nodes)) && Acyclic(DependencyGraph(nodes))
    requires k < |order| && d in order[k].dependsOn
    ensures Precedes(order, d, k)
  {
    var g := DependencyGraph(nodes);
    assert Edge(g, order[k].id, d);
    EdgeGoesDeeper(g, order[k].id, d);
    assert d in IdSet(order);
    var j :| 0 <= j < |order| && order[j].id == d;
    assert k < j ==> DeeperThenLater(g, order[k].id, order[j].id);
  }
}
