/** Execution batches of a plan, and the order in which a task walks them, fresh or resumed. */
module Batches {
  import opened Ids
  import opened Graphs
  import opened TaskPlans

  type Unit = seq<WorkflowNode>

  /** Every node's dependencies are in done or earlier in the sequence. */
  ghost predicate Layered(nodes: seq<WorkflowNode>, done: set<string>)
  {
    nodes == [] || (Dependencies(nodes[0]) <= done && Layered(nodes[1..], done + {nodes[0].id}))
  }

  /** Units run one after another; each node's dependencies are in done or in earlier units. */
  ghost predicate SafeUnits(units: seq<Unit>, done: set<string>)
  {
    units == [] ||
    ((forall n :: n in units[0] ==> Dependencies(n) <= done) && SafeUnits(units[1..], done + IdSet(units[0])))
  }

  ghost function Flatten(units: seq<Unit>): seq<WorkflowNode>
  {
    if units == [] then [] else units[0] + Flatten(units[1..])
  }

  /** The nodes that are not in done, in order. */
  function Without(nodes: seq<WorkflowNode>, done: set<string>): seq<WorkflowNode>
  {
    if nodes == [] then []
    else if nodes[0].id in done then Without(nodes[1..], done)
    else [nodes[0]] + Without(nodes[1..], done)
  }

  predicate IsReady(n: WorkflowNode, done: set<string>)
  {
    forall d :: d in n.dependsOn ==> d in done
  }

  function ReadyNodes(nodes: seq<WorkflowNode>, done: set<string>): seq<WorkflowNode>
  {
    if nodes == [] then []
    else if IsReady(nodes[0], done) then [nodes[0]] + ReadyNodes(nodes[1..], done)
    else ReadyNodes(nodes[1..], done)
  }

  function InGroup(nodes: seq<WorkflowNode>, group: string): seq<WorkflowNode>
  {
    if nodes == [] then []
    else if nodes[0].parallelGroup == group then [nodes[0]] + InGroup(nodes[1..], group)
    else InGroup(nodes[1..], group)
  }

  /** The batch formed from the ready nodes: the first one, with all ready members of its group. */
  function BatchOf(ready: seq<WorkflowNode>): Unit
    requires ready != []
  {
    if ready[0].parallelGroup == "" then [ready[0]] else InGroup(ready, ready[0].parallelGroup)
  }

  ghost predicate Part(some: seq<WorkflowNode>, nodes: seq<WorkflowNode>)
  {
    (forall n :: n in some ==> n in nodes) && (UniqueIds(nodes) ==> UniqueIds(some))
  }

  lemma OneMorePart(some: seq<WorkflowNode>, nodes: seq<WorkflowNode>)
    requires nodes != [] && Part(some, nodes[1..])
    ensures Part(some, nodes) && Part([nodes[0]] + some, nodes)
  {
    if UniqueIds(nodes) {
      assert UniqueIds(nodes[1..]);
      forall i | 0 <= i < |some| ensures some[i].id != nodes[0].id {
        assert some[i] in nodes[1..];
      }
    }
  }

  lemma {:induction false} WithoutMembers(nodes: seq<WorkflowNode>, done: set<string>)
    ensures forall n :: n in Without(nodes, done) <==> n in nodes && n.id !in done
    ensures Part(Without(nodes, done), nodes)
  {
    if nodes != [] {
      WithoutMembers(nodes[1..], done);
      OneMorePart(Without(nodes[1..], done), nodes);
    }
  }

  lemma {:induction false} ReadyMembers(nodes: seq<WorkflowNode>, done: set<string>)
    ensures forall n :: n in ReadyNodes(nodes, done) <==> n in nodes && IsReady(n, done)
    ensures Part(ReadyNodes(nodes, done), nodes)
  {
    if nodes != [] {
      ReadyMembers(nodes[1..], done);
      OneMorePart(ReadyNodes(nodes[1..], done), nodes);
    }
  }

  lemma {:induction false} GroupMembers(nodes: seq<WorkflowNode>, group: string)
    ensures forall n :: n in InGroup(nodes, group) <==> n in nodes && n.parallelGroup == group
    ensures Part(InGroup(nodes, group), nodes)
  {
    if nodes != [] {
      GroupMembers(nodes[1..], group);
      OneMorePart(InGroup(nodes[1..], group), nodes);
    }
  }

  /** A batch is headed by the first ready node and holds ready nodes only. */
  lemma BatchMembers(ready: seq<WorkflowNode>)
    requires ready != []
    ensures BatchOf(ready) != [] && BatchOf(ready)[0] == ready[0] && ready[0].id in IdSet(BatchOf(ready))
    ensures Part(BatchOf(ready), ready)
  {
    GroupMembers(ready, ready[0].parallelGroup);
    assert BatchOf(ready)[0].id in IdSet(BatchOf(ready));
  }

  lemma {:induction false} WithoutShrinks(nodes: seq<WorkflowNode>, done: set<string>)
    ensures |Without(nodes, done)| <= |nodes|
    ensures (exists n :: n in nodes && n.id in done) ==> |Without(nodes, done)| < |nodes|
  {
    if nodes != [] {
      WithoutShrinks(nodes[1..], done);
    }
  }

  /** Taking the batch out leaves fewer pending nodes. */
  lemma BatchShrinks(pending: seq<WorkflowNode>, done: set<string>)
    requires ReadyNodes(pending, done) != []
    ensures |Without(pending, IdSet(BatchOf(ReadyNodes(pending, done))))| < |pending|
  {
    var ready := ReadyNodes(pending, done);
    ReadyMembers(pending, done);
    BatchMembers(ready);
    assert ready[0] in ready;
    WithoutShrinks(pending, IdSet(BatchOf(ready)));
  }

  /** The batches of the pending nodes; none when at some point no pending node is ready. */
  function BatchesFrom(pending: seq<WorkflowNode>, done: set<string>): Option<seq<Unit>>
    decreases |pending|
  {
    if pending == [] then Some([])
    else
      var ready := ReadyNodes(pending, done);
      if ready == [] then None
      else
        var batch := BatchOf(ready);
        BatchShrinks(pending, done);
        match BatchesFrom(Without(pending, IdSet(batch)), done + IdSet(batch))
        case None => None
        case Some(rest) => Some([batch] + rest)
  }

  // ----- A depth order is layered -----

  lemma {:induction false} LayeredByPosition(order: seq<WorkflowNode>, k: nat)
    requires k <= |order|
    requires forall i, d :: 0 <= i < |order| && d in order[i].dependsOn ==> Precedes(order, d, i)
    ensures Layered(order[k..], IdSet(order[..k]))
    decreases |order| - k
  {
    if k < |order| {
      LayeredByPosition(order, k + 1);
      assert order[k..][1..] == order[k + 1..];
      assert order[..k + 1] == order[..k] + [order[k]];
      AppendedIds(order[..k], [order[k]]);
      assert IdSet([order[k]]) == {order[k].id} by {
        assert [order[k]][0].id in IdSet([order[k]]);
      }
      forall d | d in order[k].dependsOn ensures d in IdSet(order[..k]) {
        assert Precedes(order, d, k);
        var j :| 0 <= j < k && order[j].id == d;
        assert order[..k][j].id == d;
      }
    }
  }

  lemma DepthOrderIsLayered(nodes: seq<WorkflowNode>, order: seq<WorkflowNode>)
    requires IsDepthOrder(nodes, order) && Closed(DependencyGraph(nodes)) && Acyclic(DependencyGraph(nodes))
    ensures Layered(order, {}) && UniqueIds(order)
  {
    forall i, d | 0 <= i < |order| && d in order[i].dependsOn ensures Precedes(order, d, i) {
      DependencyPrecedes(nodes, order, i, d);
    }
    LayeredByPosition(order, 0);
    assert order[0..] == order && IdSet(order[..0]) == {};
    forall i, j | 0 <= i < j < |order| ensures order[i].id != order[j].id {
      DeeperThenLaterIsStrict(DependencyGraph(nodes), order[i].id, order[j].id);
    }
  }

  // ----- Batches are safe and lose no node -----

  /** Taking a batch out of the pending nodes leaves them layered over what is then done. */
  lemma {:induction false} WithoutIsLayered(nodes: seq<WorkflowNode>, done: set<string>, batch: set<string>)
    requires Layered(nodes, done)
    ensures Layered(Without(nodes, batch), done + batch)
    decreases |nodes|
  {
    if nodes != [] {
      WithoutIsLayered(nodes[1..], done + {nodes[0].id}, batch);
      assert done + {nodes[0].id} + batch == done + batch + {nodes[0].id};
      if nodes[0].id in batch {
        assert done + batch + {nodes[0].id} == done + batch;
      } else {
        assert Without(nodes, batch)[1..] == Without(nodes[1..], batch);
      }
    }
  }

  /** The first pending node of a layered sequence is ready, so it heads the next batch. */
  lemma FirstPendingIsReady(pending: seq<WorkflowNode>, done: set<string>)
    requires Layered(pending, done) && pending != []
    ensures ReadyNodes(pending, done) != [] && ReadyNodes(pending, done)[0] == pending[0]
    ensures BatchOf(ReadyNodes(pending, done)) != [] && BatchOf(ReadyNodes(pending, done))[0] == pending[0]
  {
    assert ReadyNodes(pending, done) != [] ==> BatchOf(ReadyNodes(pending, done)) != [] by {
      if ReadyNodes(pending, done) != [] {
        BatchMembers(ReadyNodes(pending, done));
      }
    }
    assert IsReady(pending[0], done) by {
      forall d | d in pending[0].dependsOn ensures d in done {
        assert d in Dependencies(pending[0]);
      }
    }
  }

  /** One round of the batch scheduler over layered pending nodes. */
  lemma FirstBatch(pending: seq<WorkflowNode>, done: set<string>) returns (batch: Unit, left: seq<WorkflowNode>)
    requires Layered(pending, done) && pending != []
    ensures ReadyNodes(pending, done) != [] && batch == BatchOf(ReadyNodes(pending, done))
    ensures batch != [] && batch[0] == pending[0] && pending[0].id in IdSet(batch) && Part(batch, pending)
    ensures forall n :: n in batch ==> Dependencies(n) <= done
    ensures left == Without(pending, IdSet(batch)) && |left| < |pending| && Part(left, pending)
    ensures Layered(left, done + IdSet(batch))
    ensures BatchesFrom(left, done + IdSet(batch)).Some? ==>
      BatchesFrom(pending, done) == Some([batch] + BatchesFrom(left, done + IdSet(batch)).value)
  {
    FirstPendingIsReady(pending, done);
    var ready := ReadyNodes(pending, done);
    batch := BatchOf(ready);
    left := Without(pending, IdSet(batch));
    BatchShrinks(pending, done);
    ReadyMembers(pending, done);
    BatchMembers(ready);
    WithoutMembers(pending, IdSet(batch));
    WithoutIsLayered(pending, done, IdSet(batch));
    forall n | n in batch ensures Dependencies(n) <= done {
      assert IsReady(n, done);
    }
  }

  /** The scheduler never meets its second cycle error, and each batch only needs what earlier batches did. */
  lemma {:induction false} BatchesAreSafe(pending: seq<WorkflowNode>, done: set<string>)
    requires Layered(pending, done)
    ensures BatchesFrom(pending, done).Some?
    ensures SafeUnits(BatchesFrom(pending, done).value, done)
    decreases |pending|
  {
    if pending != [] {
      var batch, left := FirstBatch(pending, done);
      BatchesAreSafe(left, done + IdSet(batch));
      assert BatchesFrom(pending, done).value[1..] == BatchesFrom(left, done + IdSet(batch)).value;
    }
  }

  /** Repeatedly takes the first ready node, with its group. The order is the one of OrderedNodes. */
  method ExecutionBatches(nodes: seq<WorkflowNode>) returns (r: Option<seq<Unit>>, ghost order: seq<WorkflowNode>)
    ensures r.Some? <==> Closed(DependencyGraph(nodes)) && Acyclic(DependencyGraph(nodes))
    ensures r.Some? ==> IsDepthOrder(nodes, order) && r == BatchesFrom(order, {})
  {
    var ordered := OrderedNodes(nodes);
    order := [];
    if ordered == None {
      return None, order;
    }
    order := ordered.value;
    DepthOrderIsLayered(nodes, order);
    BatchesAreSafe(order, {});
    var batches := TakeBatches(ordered.value);
    return Some(batches), order;
  }

  method TakeBatches(order: seq<WorkflowNode>) returns (batches: seq<Unit>)
    requires Layered(order, {}) && BatchesFrom(order, {}).Some?
    ensures BatchesFrom(order, {}) == Some(batches)
  {
    hide Layered, Without, ReadyNodes;
    batches := [];
    var pending := order;
    var completed: set<string> := {};
    assert BatchesFrom(order, {}).value == [] + BatchesFrom(order, {}).value;
    while pending != []
      invariant Layered(pending, completed) && BatchesFrom(pending, completed).Some?
      invariant BatchesFrom(order, {}) == Some(batches + BatchesFrom(pending, completed).value)
      decreases |pending|
    {
      ghost var first, left := FirstBatch(pending, completed);
      BatchesAreSafe(left, completed + IdSet(first));
      var ready := ReadyNodes(pending, completed);
      var batch := BatchOf(ready);
      assert batches + BatchesFrom(pending, completed).value == (batches + [first]) + BatchesFrom(left, completed + IdSet(first)).value;
      batches, pending, completed := batches + [batch], Without(pending, IdSet(batch)), completed + IdSet(batch);
    }
    assert batches + [] == batches;
  }

  // ----- Walking the batches -----

  predicate NonEmpty(units: seq<Unit>)
  {
    forall i :: 0 <= i < |units| ==> |units[i]| > 0
  }

  ghost predicate Distinct(units: seq<Unit>)
  {
    UniqueIds(Flatten(units)) && NonEmpty(units)
  }

  /** The batches of more than one node, found by the id of their first node. */
  function HeadMap(batches: seq<Unit>): map<string, Unit>
    requires NonEmpty(batches)
  {
    if batches == [] then map[]
    else (if |batches[0]| > 1 then map[batches[0][0].id := batches[0]] else map[]) + HeadMap(batches[1..])
  }

  /** No member of the unit is in the recorded set. */
  predicate Intact(u: Unit, recorded: set<string>)
  {
    forall n :: n in u ==> n.id !in recorded
  }

  /** What one pass over the order visits: a batch at its first node if no member has a recorded run,
      otherwise each node by itself. */
  function Walk(order: seq<WorkflowNode>, heads: map<string, Unit>, recorded: set<string>, skip: set<string>): seq<Unit>
  {
    if order == [] then []
    else if order[0].id in skip then Walk(order[1..], heads, recorded, skip)
    else if order[0].id in heads && Intact(heads[order[0].id], recorded) then
      [heads[order[0].id]] + Walk(order[1..], heads, recorded, skip + IdSet(heads[order[0].id]))
    else
      [[order[0]]] + Walk(order[1..], heads, recorded, skip)
  }

  /** The head map is right about each of the batches. */
  ghost predicate HeadsMatch(heads: map<string, Unit>, batches: seq<Unit>)
  {
    forall u: Unit :: u in batches ==>
      u != [] && (u[0].id in heads <==> |u| > 1) && (|u| > 1 ==> heads[u[0].id] == u)
  }

  lemma UniqueConcat(a: seq<WorkflowNode>, b: seq<WorkflowNode>)
    requires UniqueIds(a) && UniqueIds(b)
    requires forall m, n :: m in a && n in b ==> m.id != n.id
    ensures UniqueIds(a + b)
  {
    forall i, j | 0 <= i < j < |a + b| ensures (a + b)[i].id != (a + b)[j].id {
      if i < |a| <= j {
        assert a[i] in a && b[j - |a|] in b;
      }
    }
  }

  /** The batches hold each pending node exactly once. */
  lemma {:induction false} BatchesPartition(pending: seq<WorkflowNode>, done: set<string>)
    requires Layered(pending, done) && UniqueIds(pending)
    ensures BatchesFrom(pending, done).Some?
    ensures Distinct(BatchesFrom(pending, done).value)
    ensures forall n :: n in Flatten(BatchesFrom(pending, done).value) <==> n in pending
    decreases |pending|
  {
    if pending != [] {
      var batch, left := FirstBatch(pending, done);
      WithoutMembers(pending, IdSet(batch));
      BatchesPartition(left, done + IdSet(batch));
      var rest := BatchesFrom(left, done + IdSet(batch)).value;
      assert BatchesFrom(pending, done).value == [batch] + rest;
      assert Flatten([batch] + rest) == batch + Flatten(rest);
      DisjointBatch(batch, left, Flatten(rest));
      UniqueConcat(batch, Flatten(rest));
      forall n | n in pending && n !in left ensures n in batch {
        var k :| 0 <= k < |batch| && batch[k].id == n.id;
        SameId(pending, n, batch[k]);
      }
    }
  }

  lemma DisjointBatch(batch: Unit, left: seq<WorkflowNode>, later: seq<WorkflowNode>)
    requires forall n :: n in left ==> n.id !in IdSet(batch)
    requires forall n :: n in later <==> n in left
    ensures forall m, n :: m in batch && n in later ==> m.id != n.id
  {
    forall m, n | m in batch && n in later ensures m.id != n.id {
      var k :| 0 <= k < |batch| && batch[k] == m;
      assert m.id in IdSet(batch);
    }
  }

  lemma SameId(nodes: seq<WorkflowNode>, m: WorkflowNode, n: WorkflowNode)
    requires UniqueIds(nodes) && m in nodes && n in nodes && m.id == n.id
    ensures m == n
  {
    var i :| 0 <= i < |nodes| && nodes[i] == m;
    var j :| 0 <= j < |nodes| && nodes[j] == n;
  }

  lemma {:induction false} MemberOfFlatten(units: seq<Unit>, u: Unit, n: WorkflowNode)
    requires u in units && n in u
    ensures n in Flatten(units)
  {
    if units[0] != u {
      MemberOfFlatten(units[1..], u, n);
    }
  }

  lemma TailDistinct(units: seq<Unit>)
    requires units != [] && Distinct(units)
    ensures Distinct(units[1..])
    ensures forall u, m, n :: u in units[1..] && m in units[0] && n in u ==> m.id != n.id
  {
    var all := Flatten(units);
    var k := |units[0]|;
    assert all[k..] == Flatten(units[1..]);
    forall i, j | 0 <= i < j < |Flatten(units[1..])| ensures Flatten(units[1..])[i].id != Flatten(units[1..])[j].id {
      assert all[k + i].id != all[k + j].id;
    }
    forall u, m, n | u in units[1..] && m in units[0] && n in u ensures m.id != n.id {
      MemberOfFlatten(units[1..], u, n);
      var i :| 0 <= i < k && units[0][i] == m;
      var j :| 0 <= j < |Flatten(units[1..])| && Flatten(units[1..])[j] == n;
      assert all[i].id != all[k + j].id;
    }
  }

  /** The head map holds nothing but batches of several nodes, each under the id of its first node. */
  lemma {:induction false} HeadMapHolds(batches: seq<Unit>, h: string)
    requires NonEmpty(batches) && h in HeadMap(batches)
    ensures HeadMap(batches)[h] in batches && |HeadMap(batches)[h]| > 1 && HeadMap(batches)[h][0].id == h
  {
    if h in HeadMap(batches[1..]) {
      HeadMapHolds(batches[1..], h);
    }
  }

  /** Distinct batches are found by their first nodes. */
  lemma {:induction false} HeadMapMatches(batches: seq<Unit>)
    requires Distinct(batches)
    ensures HeadsMatch(HeadMap(batches), batches)
  {
    if batches != [] {
      TailDistinct(batches);
      HeadMapMatches(batches[1..]);
      var first, rest := batches[0], HeadMap(batches[1..]);
      assert first[0] in first;
      if first[0].id in rest {
        HeadMapHolds(batches[1..], first[0].id);
        assert false;
      }
      forall u: Unit | u in batches ensures u != [] && (u[0].id in HeadMap(batches) <==> |u| > 1)
        && (|u| > 1 ==> HeadMap(batches)[u[0].id] == u)
      {
        if u != first {
          assert u in batches[1..] && u[0] in u && u[0].id != first[0].id;
        }
      }
    }
  }

  lemma {:induction false} WithoutTwice(nodes: seq<WorkflowNode>, a: set<string>, b: set<string>)
    ensures Without(Without(nodes, a), b) == Without(nodes, a + b)
  {
    if nodes != [] {
      WithoutTwice(nodes[1..], a, b);
      if nodes[0].id !in a {
        assert Without(nodes, a)[1..] == Without(nodes[1..], a);
      }
    }
  }

  lemma {:induction false} WithoutAbsent(nodes: seq<WorkflowNode>, ids: set<string>)
    requires forall n :: n in nodes ==> n.id !in ids
    ensures Without(nodes, ids) == nodes
  {
    if nodes != [] {
      WithoutAbsent(nodes[1..], ids);
    }
  }

  lemma FirstIsGone(tail: seq<WorkflowNode>, skip: set<string>)
    requires UniqueIds(tail) && tail != []
    ensures Without(Without(tail[1..], skip), IdSet([tail[0]])) == Without(tail[1..], skip)
  {
    WithoutMembers(tail[1..], skip);
    forall n | n in Without(tail[1..], skip) ensures n.id !in IdSet([tail[0]]) {
      var k :| 0 <= k < |tail[1..]| && tail[1..][k] == n;
      assert tail[k + 1].id != tail[0].id;
    }
    WithoutAbsent(Without(tail[1..], skip), IdSet([tail[0]]));
  }

  /** A fresh pass visits exactly the execution batches, in their order. */
  lemma {:induction false} FreshWalk(tail: seq<WorkflowNode>, heads: map<string, Unit>, skip: set<string>, done: set<string>)
    requires UniqueIds(tail) && Layered(Without(tail, skip), done)
    requires BatchesFrom(Without(tail, skip), done).Some?
    requires HeadsMatch(heads, BatchesFrom(Without(tail, skip), done).value)
    ensures Walk(tail, heads, {}, skip) == BatchesFrom(Without(tail, skip), done).value
    decreases |tail|
  {
    if tail != [] {
      var t0, rest := tail[0], Without(tail, skip);
      assert UniqueIds(tail[1..]);
      if t0.id in skip {
        FreshWalk(tail[1..], heads, skip, done);
      } else {
        var batch, left := FirstBatch(rest, done);
        BatchesAreSafe(left, done + IdSet(batch));
        var later := BatchesFrom(left, done + IdSet(batch)).value;
        assert BatchesFrom(rest, done).value == [batch] + later;
        assert batch in [batch] + later;
        assert HeadsMatch(heads, later) by {
          assert forall u :: u in later ==> u in [batch] + later;
        }
        assert rest[1..] == Without(tail[1..], skip);
        WithoutTwice(tail[1..], skip, IdSet(batch));
        if |batch| > 1 {
          FreshWalk(tail[1..], heads, skip + IdSet(batch), done + IdSet(batch));
        } else {
          assert batch == [t0];
          FirstIsGone(tail, skip);
          FreshWalk(tail[1..], heads, skip, done + IdSet(batch));
        }
      }
    }
  }

  /** The two schedulers agree on every acceptable plan. */
  lemma FreshWalkIsBatches(nodes: seq<WorkflowNode>, order: seq<WorkflowNode>)
    requires IsDepthOrder(nodes, order) && Closed(DependencyGraph(nodes)) && Acyclic(DependencyGraph(nodes))
    ensures BatchesFrom(order, {}).Some?
    ensures var batches := BatchesFrom(order, {}).value;
      Distinct(batches) && SafeUnits(batches, {}) && Walk(order, HeadMap(batches), {}, {}) == batches
  {
    DepthOrderIsLayered(nodes, order);
    BatchesAreSafe(order, {});
    BatchesPartition(order, {});
    HeadMapMatches(BatchesFrom(order, {}).value);
    WithoutAbsent(order, {});
    FreshWalk(order, HeadMap(BatchesFrom(order, {}).value), {}, {});
  }

  // ----- When a resumed pass is safe -----

  /** Every dependency of a member of a several-node batch comes before the batch's first node. */
  ghost predicate ResumeSafe(order: seq<WorkflowNode>, batches: seq<Unit>)
  {
    forall u, n, d, k :: u in batches && |u| > 1 && n in u && d in n.dependsOn && 0 <= k < |order| && order[k] == u[0]
      ==> Precedes(order, d, k)
  }

  ghost predicate HeadsLayered(tail: seq<WorkflowNode>, heads: map<string, Unit>, before: set<string>)
  {
    tail == [] ||
    ((tail[0].id in heads ==> forall n :: n in heads[tail[0].id] ==> Dependencies(n) <= before)
      && HeadsLayered(tail[1..], heads, before + {tail[0].id}))
  }

  ghost predicate HeadsNamed(heads: map<string, Unit>)
  {
    forall h :: h in heads ==> heads[h] != [] && heads[h][0].id == h
  }

  lemma {:induction false} WalkIsSafe(tail: seq<WorkflowNode>, heads: map<string, Unit>, recorded: set<string>,
                                      skip: set<string>, before: set<string>, done: set<string>)
    requires Layered(tail, before) && HeadsLayered(tail, heads, before) && HeadsNamed(heads)
    requires before <= done && skip <= done
    ensures SafeUnits(Walk(tail, heads, recorded, skip), done)
    decreases |tail|
  {
    if tail != [] {
      var t0, before' := tail[0], before + {tail[0].id};
      if t0.id in skip {
        WalkIsSafe(tail[1..], heads, recorded, skip, before', done);
      } else if t0.id in heads && Intact(heads[t0.id], recorded) {
        var u := heads[t0.id];
        assert u[0].id in IdSet(u);
        WalkIsSafe(tail[1..], heads, recorded, skip + IdSet(u), before', done + IdSet(u));
        assert Walk(tail, heads, recorded, skip)[1..] == Walk(tail[1..], heads, recorded, skip + IdSet(u));
      } else {
        assert [t0][0].id in IdSet([t0]);
        WalkIsSafe(tail[1..], heads, recorded, skip, before', done + IdSet([t0]));
        assert Walk(tail, heads, recorded, skip)[1..] == Walk(tail[1..], heads, recorded, skip);
      }
    }
  }

  lemma {:induction false} ResumeSafeHeads(order: seq<WorkflowNode>, batches: seq<Unit>, k: nat)
    requires UniqueIds(order) && NonEmpty(batches) && ResumeSafe(order, batches) && k <= |order|
    requires forall u: Unit :: u in batches ==> u[0] in order
    ensures HeadsLayered(order[k..], HeadMap(batches), IdSet(order[..k]))
    decreases |order| - k
  {
    if k < |order| {
      ResumeSafeHeads(order, batches, k + 1);
      assert order[k..][1..] == order[k + 1..];
      assert order[..k + 1] == order[..k] + [order[k]];
      AppendedIds(order[..k], [order[k]]);
      assert IdSet([order[k]]) == {order[k].id} by {
        assert [order[k]][0].id in IdSet([order[k]]);
      }
      var h := order[k].id;
      if h in HeadMap(batches) {
        HeadMapHolds(batches, h);
        var u := HeadMap(batches)[h];
        SameId(order, u[0], order[k]);
        forall n, d | n in u && d in n.dependsOn ensures d in IdSet(order[..k]) {
          assert Precedes(order, d, k);
          var j :| 0 <= j < k && order[j].id == d;
          assert order[..k][j].id == d;
        }
      }
    }
  }

  ghost predicate ComesBefore(nodes: seq<WorkflowNode>, m: WorkflowNode, n: WorkflowNode)
  {
    nodes != [] && ((nodes[0] == m && n in nodes[1..]) || ComesBefore(nodes[1..], m, n))
  }

  lemma {:induction false} WithoutKeepsOrder(nodes: seq<WorkflowNode>, done: set<string>, m: WorkflowNode, n: WorkflowNode)
    requires ComesBefore(Without(nodes, done), m, n)
    ensures ComesBefore(nodes, m, n)
  {
    if nodes[0].id in done {
      WithoutKeepsOrder(nodes[1..], done, m, n);
    } else {
      assert Without(nodes, done)[1..] == Without(nodes[1..], done);
      WithoutMembers(nodes[1..], done);
      if !(nodes[0] == m && n in Without(nodes[1..], done)) {
        WithoutKeepsOrder(nodes[1..], done, m, n);
      }
    }
  }

  lemma {:induction false} PositionsInOrder(nodes: seq<WorkflowNode>, m: WorkflowNode, n: WorkflowNode) returns (i: nat, j: nat)
    requires ComesBefore(nodes, m, n)
    ensures i < j < |nodes| && nodes[i] == m && nodes[j] == n
  {
    if nodes[0] == m && n in nodes[1..] {
      i := 0;
      j :| 0 <= j < |nodes[1..]| && nodes[1..][j] == n;
      j := j + 1;
    } else {
      i, j := PositionsInOrder(nodes[1..], m, n);
      i, j := i + 1, j + 1;
    }
  }

  lemma LaterHead(pending: seq<WorkflowNode>, batches: seq<Unit>, b: nat)
    requires Distinct(batches) && forall n :: n in Flatten(batches) ==> n in pending
    requires 0 < b < |batches| && pending != [] && batches[0][0] == pending[0]
    ensures ComesBefore(pending, pending[0], batches[b][0])
  {
    MemberOfFlatten(batches, batches[b], batches[b][0]);
    DifferentUnits(batches, 0, b, batches[0][0], batches[b][0]);
    var x :| 0 <= x < |pending| && pending[x] == batches[b][0];
    assert pending[1..][x - 1] == batches[b][0];
  }

  /** What is left after the first batch, and the batches formed from it. */
  lemma RestOfBatches(pending: seq<WorkflowNode>, done: set<string>, batches: seq<Unit>) returns (batch: Unit, left: seq<WorkflowNode>)
    requires Layered(pending, done) && UniqueIds(pending) && BatchesFrom(pending, done) == Some(batches) && batches != []
    ensures pending != [] && batches[0] == batch && NonEmpty(batches) && forall i :: 0 <= i < |batches| ==> batches[i] != []
    ensures batches[0][0] == pending[0]
    ensures left == Without(pending, IdSet(batch)) && |left| < |pending|
    ensures Layered(left, done + IdSet(batch)) && UniqueIds(left)
    ensures BatchesFrom(left, done + IdSet(batch)) == Some(batches[1..])
    ensures Distinct(batches[1..]) && forall n :: n in Flatten(batches[1..]) ==> n in left
  {
    hide *;
    HasBatches(pending, done, batches);
    batch, left := FirstBatch(pending, done);
    PartIsUnique(left, pending);
    BatchesAreSafe(left, done + IdSet(batch));
    BatchesPartition(left, done + IdSet(batch));
    var rest := BatchesFrom(left, done + IdSet(batch)).value;
    assert batches == [batch] + rest && batches[1..] == rest;
    BatchesPartition(pending, done);
    DistinctIsNonEmpty(batches);
  }

  lemma DistinctIsNonEmpty(units: seq<Unit>)
    requires Distinct(units)
    ensures NonEmpty(units) && forall i :: 0 <= i < |units| ==> units[i] != []
  {
  }

  lemma HasBatches(pending: seq<WorkflowNode>, done: set<string>, batches: seq<Unit>)
    requires Layered(pending, done) && UniqueIds(pending) && BatchesFrom(pending, done) == Some(batches) && batches != []
    ensures pending != []
  {
  }

  lemma PartIsUnique(some: seq<WorkflowNode>, nodes: seq<WorkflowNode>)
    requires Part(some, nodes) && UniqueIds(nodes)
    ensures UniqueIds(some)
  {
  }

  /** Batches are listed in the order of their first nodes. */
  lemma {:induction false} HeadsInOrder(pending: seq<WorkflowNode>, done: set<string>, batches: seq<Unit>, a: nat, b: nat)
    requires Layered(pending, done) && UniqueIds(pending) && BatchesFrom(pending, done) == Some(batches)
    requires a < b < |batches| && Distinct(batches) && forall n :: n in Flatten(batches) ==> n in pending
    ensures ComesBefore(pending, batches[a][0], batches[b][0])
    decreases |pending|
  {
    hide *;
    var batch, left := RestOfBatches(pending, done, batches);
    if a == 0 {
      LaterHead(pending, batches, b);
    } else {
      HeadsInOrder(left, done + IdSet(batch), batches[1..], a - 1, b - 1);
      WithoutKeepsOrder(pending, IdSet(batch), batches[a][0], batches[b][0]);
    }
  }

  /** In safe units, a dependency of unit b is in an earlier unit. */
  lemma {:induction false} EarlierUnit(units: seq<Unit>, done: set<string>, b: nat, n: WorkflowNode, d: string) returns (a: nat)
    requires SafeUnits(units, done) && b < |units| && n in units[b] && d in n.dependsOn && d !in done
    ensures a < b && d in IdSet(units[a])
  {
    assert d in Dependencies(n);
    if b == 0 {
      assert false;
    }
    if d in IdSet(units[0]) {
      a := 0;
    } else {
      a := EarlierUnit(units[1..], done + IdSet(units[0]), b - 1, n, d);
      a := a + 1;
    }
  }

  lemma {:induction false} DifferentUnits(units: seq<Unit>, a: nat, b: nat, m: WorkflowNode, n: WorkflowNode)
    requires Distinct(units) && a < b < |units| && m in units[a] && n in units[b]
    ensures m.id != n.id
  {
    TailDistinct(units);
    if a == 0 {
      assert units[b] == units[1..][b - 1];
    } else {
      DifferentUnits(units[1..], a - 1, b - 1, m, n);
    }
  }

  lemma SameUnit(units: seq<Unit>, a: nat, b: nat, x: string)
    requires Distinct(units) && a < |units| && b < |units| && x in IdSet(units[a]) && x in IdSet(units[b])
    ensures a == b
  {
    var i :| 0 <= i < |units[a]| && units[a][i].id == x;
    var j :| 0 <= j < |units[b]| && units[b][j].id == x;
    if a < b {
      DifferentUnits(units, a, b, units[a][i], units[b][j]);
    } else if b < a {
      DifferentUnits(units, b, a, units[b][j], units[a][i]);
    }
  }

  /** A resumed pass over a resume-safe plan starts no node before its dependencies, whatever runs are recorded. */
  lemma ResumeSafeWalk(nodes: seq<WorkflowNode>, order: seq<WorkflowNode>, recorded: set<string>)
    requires IsDepthOrder(nodes, order) && Closed(DependencyGraph(nodes)) && Acyclic(DependencyGraph(nodes))
    requires BatchesFrom(order, {}).Some? && NonEmpty(BatchesFrom(order, {}).value) && ResumeSafe(order, BatchesFrom(order, {}).value)
    ensures SafeUnits(Walk(order, HeadMap(BatchesFrom(order, {}).value), recorded, {}), {})
  {
    FreshWalkIsBatches(nodes, order);
    DepthOrderIsLayered(nodes, order);
    var batches := BatchesFrom(order, {}).value;
    BatchesPartition(order, {});
    forall u: Unit | u in batches ensures u[0] in order {
      MemberOfFlatten(batches, u, u[0]);
    }
    ResumeSafeHeads(order, batches, 0);
    assert order[0..] == order && IdSet(order[..0]) == {};
    assert HeadsNamed(HeadMap(batches)) by {
      forall h | h in HeadMap(batches) ensures HeadMap(batches)[h] != [] && HeadMap(batches)[h][0].id == h {
        HeadMapHolds(batches, h);
      }
    }
    WalkIsSafe(order, HeadMap(batches), recorded, {}, {}, {});
  }
}
