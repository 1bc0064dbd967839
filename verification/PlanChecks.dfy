/** What is checked of a plan before it runs, and what a resumed step drops. */
module PlanChecks {
  import opened Ids
  import opened Graphs
  import opened TaskPlans

  // ----- Validation -----

  ghost predicate KnownDependencies(nodes: seq<WorkflowNode>)
  {
    forall n, d :: n in nodes && d in n.dependsOn ==> d in IdSet(nodes)
  }

  ghost predicate NamedWorkflows(nodes: seq<WorkflowNode>)
  {
    forall n :: n in nodes ==> n.workflowId != ""
  }

  /** No member of a parallel group depends directly on a member of the same group. */
  ghost predicate IndependentGroups(nodes: seq<WorkflowNode>)
  {
    forall m, n :: m in nodes && n in nodes && m.parallelGroup == n.parallelGroup && m.parallelGroup != "" ==>
      n.id !in m.dependsOn
  }

  ghost predicate ValidPlan(plan: TaskPlan)
  {
    && plan.id != "" && plan.version != "" && plan.nodes != []
    && UniqueIds(plan.nodes) && NamedWorkflows(plan.nodes) && KnownDependencies(plan.nodes)
    && IndependentGroups(plan.nodes) && Acyclic(DependencyGraph(plan.nodes))
  }

  lemma UniqueSize(nodes: seq<WorkflowNode>)
    ensures |IdSet(nodes)| <= |nodes|
    ensures |IdSet(nodes)| == |nodes| <==> UniqueIds(nodes)
  {
    if nodes != [] {
      var front, last := nodes[..|nodes| - 1], nodes[|nodes| - 1];
      assert nodes == front + [last];
      UniqueSize(front);
      AppendedIds(front, [last]);
      assert IdSet([last]) == {last.id} by {
        assert [last][0].id in IdSet([last]);
      }
      if last.id in IdSet(front) {
        var i :| 0 <= i < |front| && front[i].id == last.id;
        assert nodes[i].id == nodes[|nodes| - 1].id;
        assert IdSet(nodes) == IdSet(front);
      } else {
        assert forall i :: 0 <= i < |front| ==> front[i].id in IdSet(front);
        assert UniqueIds(nodes) <==> UniqueIds(front) by {
          assert UniqueIds(nodes) ==> UniqueIds(front);
        }
      }
    }
  }

  /** Known dependencies make the graph closed. */
  lemma KnownIsClosed(nodes: seq<WorkflowNode>)
    requires KnownDependencies(nodes)
    ensures Closed(DependencyGraph(nodes))
  {
    var m := Latest(nodes);
    forall n, d | n in m && d in Dependencies(m[n]) ensures d in m {
      assert m[n] in nodes;
    }
  }

  method CheckNodes(nodes: seq<WorkflowNode>) returns (r: Option<PlanError>)
    ensures r == None <==> NamedWorkflows(nodes) && KnownDependencies(nodes)
    ensures r in {None, Some(MissingWorkflow), Some(UnknownDependency)}
    ensures r == Some(MissingWorkflow) ==> !NamedWorkflows(nodes)
    ensures r == Some(UnknownDependency) ==> !KnownDependencies(nodes)
  {
    var ids := IdSet(nodes);
    for i := 0 to |nodes|
      invariant forall k :: 0 <= k < i ==> nodes[k].workflowId != ""
      invariant forall k, d :: 0 <= k < i && d in nodes[k].dependsOn ==> d in ids
    {
      if nodes[i].workflowId == "" {
        return Some(MissingWorkflow);
      }
      var unknown := Dependencies(nodes[i]) - ids;
      if unknown != {} {
        var d :| d in unknown;
        return Some(UnknownDependency);
      }
      forall d | d in nodes[i].dependsOn ensures d in ids {
        assert d in Dependencies(nodes[i]) && d !in unknown;
      }
    }
    return None;
  }

  /** The ids of the members of one named group. */
  function Members(nodes: seq<WorkflowNode>, group: string): set<string>
  {
    set i | 0 <= i < |nodes| && nodes[i].parallelGroup == group :: nodes[i].id
  }

  method CheckGroups(nodes: seq<WorkflowNode>) returns (ok: bool)
    requires UniqueIds(nodes)
    ensures ok <==> IndependentGroups(nodes)
  {
    var groups: map<string, set<string>> := map[];
    for i := 0 to |nodes|
      invariant forall g :: g in groups ==> g != "" && groups[g] == Members(nodes[..i], g)
      invariant forall k :: 0 <= k < i && nodes[k].parallelGroup != "" ==> nodes[k].parallelGroup in groups
    {
      assert nodes[..i + 1] == nodes[..i] + [nodes[i]];
      var g := nodes[i].parallelGroup;
      forall h ensures Members(nodes[..i + 1], h) == Members(nodes[..i], h) + if h == g then {nodes[i].id} else {} {
        MembersGrow(nodes[..i], nodes[i], h);
      }
      if g != "" {
        if g !in groups {
          NoMembers(nodes[..i], g);
        }
        groups := groups[g := (if g in groups then groups[g] else {}) + {nodes[i].id}];
      }
    }
    assert nodes[..|nodes|] == nodes;
    var rest := groups.Keys;
    while rest != {}
      invariant rest <= groups.Keys
      invariant forall k, d ::
        0 <= k < |nodes| && nodes[k].parallelGroup in groups.Keys - rest && d in nodes[k].dependsOn ==>
          d !in groups[nodes[k].parallelGroup]
    {
      var g :| g in rest;
      for i := 0 to |nodes|
        invariant forall k, d :: 0 <= k < i && nodes[k].parallelGroup == g && d in nodes[k].dependsOn ==> d !in groups[g]
      {
        var within := Dependencies(nodes[i]) * groups[g];
        assert nodes[i].id in groups[g] <==> nodes[i].parallelGroup == g;
        if nodes[i].id in groups[g] && within != {} {
          var d :| d in within;
          var j :| 0 <= j < |nodes| && nodes[j].parallelGroup == g && nodes[j].id == d;
          assert nodes[j].id in nodes[i].dependsOn;
          return false;
        }
        if nodes[i].parallelGroup == g {
          forall d | d in nodes[i].dependsOn ensures d !in groups[g] {
            assert d in Dependencies(nodes[i]) && d !in within;
          }
        }
      }
      rest := rest - {g};
    }
    return true;
  }

  lemma MembersGrow(front: seq<WorkflowNode>, n: WorkflowNode, h: string)
    ensures Members(front + [n], h) == Members(front, h) + if h == n.parallelGroup then {n.id} else {}
  {
    var all := front + [n];
    assert all[|front|] == n;
    forall x | x in Members(front, h) ensures x in Members(all, h) {
      var i :| 0 <= i < |front| && front[i].parallelGroup == h && front[i].id == x;
      assert all[i] == front[i];
    }
  }

  lemma NoMembers(nodes: seq<WorkflowNode>, g: string)
    requires forall k :: 0 <= k < |nodes| ==> nodes[k].parallelGroup != g
    ensures Members(nodes, g) == {}
  {
  }

  method Validate(plan: TaskPlan) returns (r: Option<PlanError>)
    ensures r == None <==> ValidPlan(plan)
    ensures r == Some(DuplicateId) ==> !UniqueIds(plan.nodes)
    ensures r == Some(DependentGroup) ==> KnownDependencies(plan.nodes) && !IndependentGroups(plan.nodes)
    ensures r == Some(DependencyCycle) ==>
      UniqueIds(plan.nodes) && KnownDependencies(plan.nodes) && IndependentGroups(plan.nodes) && !Acyclic(DependencyGraph(plan.nodes))
  {
    if plan.id == "" || plan.version == "" || plan.nodes == [] {
      return Some(Incomplete);
    }
    UniqueSize(plan.nodes);
    if |IdSet(plan.nodes)| != |plan.nodes| {
      return Some(DuplicateId);
    }
    r := CheckNodes(plan.nodes);
    if r != None {
      return;
    }
    var independent := CheckGroups(plan.nodes);
    if !independent {
      return Some(DependentGroup);
    }
    KnownIsClosed(plan.nodes);
    var ordered := OrderedNodes(plan.nodes);
    if ordered == None {
      return Some(DependencyCycle);
    }
    return None;
  }

  // ----- What a resumed step drops -----

  /** The dependency edges of every listed node. */
  ghost function EdgeGraph(nodes: seq<WorkflowNode>): Graph
  {
    map n | n in IdSet(nodes) :: set i, d | 0 <= i < |nodes| && nodes[i].id == n && d in nodes[i].dependsOn :: d
  }

  lemma EdgeOf(nodes: seq<WorkflowNode>, n: WorkflowNode, d: string)
    requires n in nodes && d in n.dependsOn
    ensures Edge(EdgeGraph(nodes), n.id, d)
  {
    var i :| 0 <= i < |nodes| && nodes[i] == n;
    assert nodes[i].id in IdSet(nodes);
  }

  lemma EdgeFrom(nodes: seq<WorkflowNode>, a: string, d: string) returns (n: WorkflowNode)
    requires Edge(EdgeGraph(nodes), a, d)
    ensures n in nodes && n.id == a && d in n.dependsOn
  {
    var i, e :| 0 <= i < |nodes| && nodes[i].id == a && e in nodes[i].dependsOn && e == d;
    n := nodes[i];
  }

  lemma ReachesItself(g: Graph, a: string)
    ensures Reaches(g, a, a)
  {
    assert IsChain(g, [a]);
  }

  lemma ReachesThrough(g: Graph, a: string, b: string, c: string)
    requires Edge(g, a, b) && Reaches(g, b, c)
    ensures ReachesProperly(g, a, c) && Reaches(g, a, c)
  {
    var p :| IsChain(g, p) && p[0] == b && p[|p| - 1] == c;
    var q := Prepended(g, a, p);
  }

  /** The nodes of s all reach the step. */
  ghost predicate AllReach(nodes: seq<WorkflowNode>, s: set<string>, step: string)
  {
    forall a {:trigger Reaches(EdgeGraph(nodes), a, step)} :: a in s ==> Reaches(EdgeGraph(nodes), a, step)
  }

  /** No node outside s depends directly on a node of s. */
  ghost predicate Swept(nodes: seq<WorkflowNode>, s: set<string>)
  {
    forall k :: 0 <= k < |nodes| && Dependencies(nodes[k]) * s != {} ==> nodes[k].id in s
  }

  lemma OneMore(nodes: seq<WorkflowNode>, s: set<string>, step: string, n: WorkflowNode)
    requires AllReach(nodes, s, step) && n in nodes && Dependencies(n) * s != {}
    ensures AllReach(nodes, s + {n.id}, step) && n.id in IdSet(nodes)
  {
    var d :| d in Dependencies(n) && d in s;
    assert Reaches(EdgeGraph(nodes), d, step);
    EdgeOf(nodes, n, d);
    ReachesThrough(EdgeGraph(nodes), n.id, d, step);
    var i :| 0 <= i < |nodes| && nodes[i] == n;
  }

  /** One sweep over the plan, adding the nodes that depend on what is already there. */
  method Sweep(nodes: seq<WorkflowNode>, step: string, start: set<string>) returns (downstream: set<string>, changed: bool)
    requires AllReach(nodes, start, step) && start <= IdSet(nodes) + {step}
    ensures AllReach(nodes, downstream, step) && start <= downstream <= IdSet(nodes) + {step}
    ensures changed <==> start != downstream
    ensures !changed ==> Swept(nodes, downstream)
  {
    downstream, changed := start, false;
    for i := 0 to |nodes|
      invariant start <= downstream <= IdSet(nodes) + {step}
      invariant AllReach(nodes, downstream, step)
      invariant changed <==> start != downstream
      invariant !changed ==> forall k :: 0 <= k < i && Dependencies(nodes[k]) * downstream != {} ==> nodes[k].id in downstream
    {
      if nodes[i].id !in downstream && Dependencies(nodes[i]) * downstream != {} {
        OneMore(nodes, downstream, step, nodes[i]);
        downstream := downstream + {nodes[i].id};
        changed := true;
      }
    }
  }

  lemma SweptIsClosed(nodes: seq<WorkflowNode>, s: set<string>)
    requires Swept(nodes, s)
    ensures ClosedUnderPredecessors(EdgeGraph(nodes), s)
  {
    forall a, b | Edge(EdgeGraph(nodes), a, b) && b in s ensures a in s {
      var n := EdgeFrom(nodes, a, b);
      var i :| 0 <= i < |nodes| && nodes[i] == n;
      assert b in Dependencies(n) * s;
    }
  }

  /** The step and everything that transitively depends on it, by repeated sweeps over the plan. */
  method DownstreamNodeIds(nodes: seq<WorkflowNode>, step: string) returns (downstream: set<string>)
    ensures forall a :: a in downstream <==> Reaches(EdgeGraph(nodes), a, step)
  {
    downstream := {step};
    ReachesItself(EdgeGraph(nodes), step);
    var changed := true;
    while changed
      invariant step in downstream && downstream <= IdSet(nodes) + {step}
      invariant AllReach(nodes, downstream, step)
      invariant !changed ==> Swept(nodes, downstream)
      decreases |IdSet(nodes) + {step} - downstream|, changed
    {
      ghost var before := downstream;
      downstream, changed := Sweep(nodes, step, downstream);
      if changed {
        SmallerSet(IdSet(nodes) + {step} - downstream, IdSet(nodes) + {step} - before);
      }
    }
    SweptIsClosed(nodes, downstream);
    forall a | Reaches(EdgeGraph(nodes), a, step) ensures a in downstream {
      DownstreamIsLeast(nodes, step, downstream, a);
    }
    assert forall a :: a in downstream ==> Reaches(EdgeGraph(nodes), a, step);
  }

  /** The dropped set is the least one that holds the step and is closed under dependents. */
  lemma DownstreamIsLeast(nodes: seq<WorkflowNode>, step: string, s: set<string>, a: string)
    requires step in s && ClosedUnderPredecessors(EdgeGraph(nodes), s) && Reaches(EdgeGraph(nodes), a, step)
    ensures a in s
  {
    var g := EdgeGraph(nodes);
    var p :| IsChain(g, p) && p[0] == a && p[|p| - 1] == step;
    PredecessorsReach(g, s, p);
  }

  /** A result that is kept never belongs to a node that depends, directly or not, on a dropped one. */
  lemma KeptIsIndependent(nodes: seq<WorkflowNode>, step: string, downstream: set<string>, kept: string, dropped: string)
    requires forall a :: a in downstream <==> Reaches(EdgeGraph(nodes), a, step)
    requires kept !in downstream && dropped in downstream
    ensures !Reaches(EdgeGraph(nodes), kept, dropped)
  {
    var g := EdgeGraph(nodes);
    if Reaches(g, kept, dropped) {
      var p :| IsChain(g, p) && p[0] == kept && p[|p| - 1] == dropped;
      var q :| IsChain(g, q) && q[0] == dropped && q[|q| - 1] == step;
      var r := Concatenated(g, p, q);
      assert Reaches(g, kept, step);
      assert false;
    }
  }

  // ----- Input references -----

  /** The node output a reference needs, if it names one: plain inputs and loop variables need none. */
  function ReferencedSource(reference: seq<string>): Option<string>
  {
    var root := if reference == [] then "" else reference[0];
    if root in {"inputs", "context", "device"} then None
    else
      var source := if root == "outputs" && |reference| > 1 then reference[1] else root;
      if source in {"item", "index", "iteration", "result"} then None else Some(source)
  }

  /** Every node output that an input mapping refers to comes from a transitive dependency. */
  ghost predicate InputsUpstream(nodes: seq<WorkflowNode>)
  {
    AllUpstream(DependencyGraph(nodes), IdSet(nodes), ReferencedSource, nodes)
  }

  type SourceRule = seq<string> -> Option<string>

  ghost predicate AllUpstream(g: Graph, ids: set<string>, rule: SourceRule, nodes: seq<WorkflowNode>)
  {
    forall i :: 0 <= i < |nodes| ==> NodeUpstream(g, ids, rule, nodes[i])
  }

  ghost predicate NodeUpstream(g: Graph, ids: set<string>, rule: SourceRule, n: WorkflowNode)
  {
    forall j :: 0 <= j < |n.references| ==> SourceUpstream(g, ids, n.id, rule(n.references[j]))
  }

  /** The node output that is needed, if any, belongs to a transitive dependency. */
  ghost predicate SourceUpstream(g: Graph, ids: set<string>, id: string, source: Option<string>)
  {
    source.Some? && source.value in ids ==> ReachesProperly(g, id, source.value)
  }

  lemma ProperStep(g: Graph, n: string, m: string)
    ensures ReachesProperly(g, n, m) <==> exists d :: Edge(g, n, d) && (d == m || ReachesProperly(g, d, m))
  {
    if ReachesProperly(g, n, m) {
      var p :| IsChain(g, p) && |p| > 1 && p[0] == n && p[|p| - 1] == m;
      TailIsChain(g, p);
      if |p| > 2 {
        assert ReachesProperly(g, p[1], m);
      }
    }
    if d :| Edge(g, n, d) && (d == m || ReachesProperly(g, d, m)) {
      if d == m {
        ReachesItself(g, m);
      } else {
        assert Reaches(g, d, m);
      }
      ReachesThrough(g, n, d, m);
    }
  }

  /** What a set of ancestors should be. */
  ghost predicate IsAncestors(g: Graph, n: string, s: set<string>)
  {
    forall m {:trigger ReachesProperly(g, n, m)} {:trigger m in s} :: m in s <==> ReachesProperly(g, n, m)
  }

  ghost predicate AncestorsDone(g: Graph, ancestors: map<string, set<string>>, placed: set<string>)
  {
    ancestors.Keys == g.Keys && forall n :: n in placed && n in g ==> IsAncestors(g, n, ancestors[n])
  }

  /** One node's ancestors: its dependencies and theirs. */
  method AncestorsFromDependencies(ghost g: Graph, node: WorkflowNode, ancestors: map<string, set<string>>)
    returns (s: set<string>)
    requires node.id in g && g[node.id] == Dependencies(node)
    requires forall d :: d in node.dependsOn ==> d in ancestors && IsAncestors(g, d, ancestors[d])
    ensures IsAncestors(g, node.id, s)
  {
    s := {};
    for j := 0 to |node.dependsOn|
      invariant forall m :: m in s <==> exists k :: 0 <= k < j && (node.dependsOn[k] == m || m in ancestors[node.dependsOn[k]])
    {
      var d := node.dependsOn[j];
      s := s + {d} + ancestors[d];
    }
    forall m ensures m in s <==> ReachesProperly(g, node.id, m) {
      ProperStep(g, node.id, m);
      if m in s {
        var k :| 0 <= k < |node.dependsOn| && (node.dependsOn[k] == m || m in ancestors[node.dependsOn[k]]);
        assert Edge(g, node.id, node.dependsOn[k]);
      }
      if d :| Edge(g, node.id, d) && (d == m || ReachesProperly(g, d, m)) {
        var k :| 0 <= k < |node.dependsOn| && node.dependsOn[k] == d;
      }
    }
  }

  lemma DependenciesPlaced(nodes: seq<WorkflowNode>, order: seq<WorkflowNode>, i: nat,
                           ancestors: map<string, set<string>>, d: string)
    requires IsDepthOrder(nodes, order) && Closed(DependencyGraph(nodes)) && Acyclic(DependencyGraph(nodes))
    requires i < |order| && d in order[i].dependsOn
    requires AncestorsDone(DependencyGraph(nodes), ancestors, IdSet(order[..i]))
    ensures d in ancestors && IsAncestors(DependencyGraph(nodes), d, ancestors[d])
  {
    DependencyPrecedes(nodes, order, i, d);
    var j :| 0 <= j < i && order[j].id == d;
    assert order[..i][j].id in IdSet(order[..i]);
    assert order[j].id in IdSet(order);
  }

  lemma OneMoreDone(nodes: seq<WorkflowNode>, order: seq<WorkflowNode>, i: nat,
                    ancestors: map<string, set<string>>, mine: set<string>)
    requires i < |order| && order[i].id in DependencyGraph(nodes)
    requires AncestorsDone(DependencyGraph(nodes), ancestors, IdSet(order[..i]))
    requires IsAncestors(DependencyGraph(nodes), order[i].id, mine)
    ensures AncestorsDone(DependencyGraph(nodes), ancestors[order[i].id := mine], IdSet(order[..i + 1]))
  {
    assert order[..i + 1] == order[..i] + [order[i]];
    AppendedIds(order[..i], [order[i]]);
    assert [order[i]][0] == order[i];
  }

  function NoAncestors(ids: set<string>): map<string, set<string>>
  {
    map n | n in ids :: {}
  }

  /** The ancestor sets are the transitive closure of the dependencies. */
  method ComputeAncestors(nodes: seq<WorkflowNode>) returns (ancestors: map<string, set<string>>)
    requires UniqueIds(nodes) && KnownDependencies(nodes) && Acyclic(DependencyGraph(nodes))
    ensures AncestorsDone(DependencyGraph(nodes), ancestors, IdSet(nodes))
  {
    KnownIsClosed(nodes);
    var ordered := OrderedNodes(nodes);
    ancestors := PlaceNodes(nodes, ordered.value);
  }

  method PlaceNodes(nodes: seq<WorkflowNode>, order: seq<WorkflowNode>) returns (ancestors: map<string, set<string>>)
    requires IsDepthOrder(nodes, order) && Closed(DependencyGraph(nodes)) && Acyclic(DependencyGraph(nodes))
    ensures AncestorsDone(DependencyGraph(nodes), ancestors, IdSet(order))
  {
    ancestors := NoAncestors(IdSet(nodes));
    for i := 0 to |order|
      invariant AncestorsDone(DependencyGraph(nodes), ancestors, IdSet(order[..i]))
    {
      forall d | d in order[i].dependsOn ensures d in ancestors && IsAncestors(DependencyGraph(nodes), d, ancestors[d]) {
        DependenciesPlaced(nodes, order, i, ancestors, d);
      }
      assert order[i].id in IdSet(order);
      var mine := AncestorsFromDependencies(DependencyGraph(nodes), order[i], ancestors);
      OneMoreDone(nodes, order, i, ancestors, mine);
      ancestors := ancestors[order[i].id := mine];
    }
    assert order[..|order|] == order;
  }

  /** One node's references against its ancestors. */
  method CheckNode(ghost g: Graph, ids: set<string>, rule: SourceRule, n: WorkflowNode, ancestors: set<string>)
    returns (ok: bool)
    requires IsAncestors(g, n.id, ancestors)
    ensures ok <==> NodeUpstream(g, ids, rule, n)
  {
    for j := 0 to |n.references|
      invariant forall k :: 0 <= k < j ==> SourceUpstream(g, ids, n.id, rule(n.references[k]))
    {
      var source := rule(n.references[j]);
      if source.Some? && source.value in ids && source.value !in ancestors {
        assert !SourceUpstream(g, ids, n.id, rule(n.references[j]));
        return false;
      }
      assert source.Some? && source.value in ancestors ==> ReachesProperly(g, n.id, source.value);
    }
    return true;
  }

  method CheckAll(ghost g: Graph, ids: set<string>, rule: SourceRule, nodes: seq<WorkflowNode>,
                  ancestors: map<string, set<string>>)
    returns (ok: bool)
    requires forall i :: 0 <= i < |nodes| ==> nodes[i].id in ancestors && IsAncestors(g, nodes[i].id, ancestors[nodes[i].id])
    ensures ok <==> AllUpstream(g, ids, rule, nodes)
  {
    for i := 0 to |nodes|
      invariant forall k :: 0 <= k < i ==> NodeUpstream(g, ids, rule, nodes[k])
    {
      var fine := CheckNode(g, ids, rule, nodes[i], ancestors[nodes[i].id]);
      if !fine {
        return false;
      }
    }
    return true;
  }

  /** Refuses a plan in which an input refers to the output of a node outside its dependency chain. */
  method ValidateInputDependencies(nodes: seq<WorkflowNode>) returns (ok: bool)
    requires UniqueIds(nodes) && KnownDependencies(nodes) && Acyclic(DependencyGraph(nodes))
    ensures ok <==> InputsUpstream(nodes)
  {
    var ancestors := ComputeAncestors(nodes);
    forall i | 0 <= i < |nodes|
      ensures nodes[i].id in ancestors && IsAncestors(DependencyGraph(nodes), nodes[i].id, ancestors[nodes[i].id])
    {
      assert nodes[i].id in IdSet(nodes);
    }
    ok := CheckAll(DependencyGraph(nodes), IdSet(nodes), ReferencedSource, nodes, ancestors);
  }
}
